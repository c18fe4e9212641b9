/** The two tables of the service and what each statement does to them (src/ocr_engine/repo/store.py).
  *
  * A table is a value here and each statement a function from tables to tables; the class `Store` runs the
  * same statements on fields, and the lifecycle machine interleaves them.
  */
module Tables {
  import opened Prelude
  import opened Statuses
  import opened Validate
  import opened Documents
  import opened Envelopes

  // ----- the outbox -----

  /** A row of the outbox; its id is its position, since rows are never deleted. */
  datatype Event = Event(docId: DocId, payload: Envelope, topic: string, traceId: Option<string>, createdAt: Time,
                         publishedAt: Option<Time>, attemptCount: nat, nextAttemptAt: Option<Time>,
                         lockedAt: Option<Time>, lockedBy: Option<string>)

  datatype Tables = Tables(documents: map<DocId, Row>, outbox: seq<Event>)

  // ----- statements on documents -----

  /** The unique constraints: the primary key and the index on the idempotency key. */
  ghost predicate Insertable(documents: map<DocId, Row>, id: DocId, key: nat) {
    id !in documents && forall d :: d in documents ==> documents[d].submission.key != key
  }

  function QueuedRow(s: Submission, now: Time): Row {
    Row(s, Queued, None, None, None, None, None, now, now)
  }

  function MarkedProcessing(documents: map<DocId, Row>, id: DocId, now: Time): map<DocId, Row> {
    if id in documents && documents[id].status == Queued
    then documents[id := documents[id].(status := Processing, updatedAt := now)]
    else documents
  }

  /** What a run decided: the terminal columns of the row. */
  datatype Outcome = Outcome(status: Status, result: Option<DocumentResult>, avgConfidence: Option<real>,
                             error: Option<ErrorInfo>)
  {
    /** A success with its result, or a failure with its error. */
    predicate WellFormed() {
      || (status in {Completed, NeedsReview} && result.Some? && error.None?)
      || (status == Failed && result.None? && error.Some?)
    }
  }

  function FinishedRow(r: Row, o: Outcome, now: Time): Row {
    r.(status := o.status, result := o.result, avgConfidence := o.avgConfidence,
       errorCode := if o.error.Some? then Some(o.error.value.code) else None,
       errorMessage := if o.error.Some? then Some(o.error.value.message) else None,
       processedAt := Some(now), updatedAt := now)
  }

  function NewEvent(id: DocId, payload: Envelope, topic: string, traceId: Option<string>, now: Time): Event {
    Event(id, payload, topic, traceId, now, None, 0, None, None, None)
  }

  /** One transaction: the update touches the row if there is one; the event is inserted in any case. */
  function Concluded(t: Tables, id: DocId, o: Outcome, payload: Envelope, topic: string, traceId: Option<string>,
                    now: Time): Tables {
    Tables(if id in t.documents then t.documents[id := FinishedRow(t.documents[id], o, now)] else t.documents,
           t.outbox + [NewEvent(id, payload, topic, traceId, now)])
  }

  function PurgedRow(r: Row, now: Time): Row {
    r.(result := None, errorMessage := None, updatedAt := now)
  }

  function Purged(documents: map<DocId, Row>, ids: seq<DocId>, now: Time): map<DocId, Row> {
    map d | d in documents :: if d in ids then PurgedRow(documents[d], now) else documents[d]
  }

  predicate Expired(documents: map<DocId, Row>, d: DocId, cutoff: Time) {
    d in documents && documents[d].processedAt.Some? && documents[d].processedAt.value < cutoff
  }

  const SWEEP_LIMIT: nat := 100

  ghost predicate NoDuplicates<T>(s: seq<T>) {
    forall i, j :: 0 <= i < j < |s| ==> s[i] != s[j]
  }

  /** An answer of the retention query: the oldest expired rows, at most a hundred, in any order among equals.
    * Rows whose results are already gone still count. */
  ghost predicate IsSweep(documents: map<DocId, Row>, cutoff: Time, ids: seq<DocId>) {
    var expired := set d | d in documents && Expired(documents, d, cutoff);
    && NoDuplicates(ids)
    && (forall d <- ids :: d in expired)
    && |ids| == (if |expired| < SWEEP_LIMIT then |expired| else SWEEP_LIMIT)
    && (forall d, e :: d in ids && e in expired && e !in ids ==>
          documents[d].processedAt.value <= documents[e].processedAt.value)
  }

  // ----- statements on the outbox -----

  /** What a claim may take: unpublished, due, and not leased within the last minute. */
  predicate Eligible(e: Event, now: Time) {
    && e.publishedAt.None?
    && (e.nextAttemptAt.Some? ==> e.nextAttemptAt.value <= now)
    && (e.lockedAt.Some? ==> e.lockedAt.value < now - MINUTE)
  }

  /** An answer of the claim statement: the oldest eligible rows, at most `batch`, in any order. */
  ghost predicate IsClaim(outbox: seq<Event>, now: Time, batch: nat, ids: seq<nat>) {
    var eligible := set i | 0 <= i < |outbox| && Eligible(outbox[i], now);
    && NoDuplicates(ids)
    && (forall i <- ids :: i in eligible)
    && |ids| == (if |eligible| < batch then |eligible| else batch)
    && (forall i, j :: i in ids && j in eligible && j !in ids ==> outbox[i].createdAt <= outbox[j].createdAt)
  }

  function ClaimedEvent(e: Event, worker: string, now: Time): Event {
    e.(lockedBy := Some(worker), lockedAt := Some(now), attemptCount := e.attemptCount + 1)
  }

  function Claimed(outbox: seq<Event>, ids: seq<nat>, worker: string, now: Time): (r: seq<Event>)
    ensures |r| == |outbox|
  {
    seq(|outbox|, i requires 0 <= i < |outbox| =>
      if i in ids then ClaimedEvent(outbox[i], worker, now) else outbox[i])
  }

  function PublishedEvent(e: Event, now: Time): Event {
    e.(publishedAt := Some(now), lockedBy := None, lockedAt := None)
  }

  function MarkedPublished(outbox: seq<Event>, i: nat, now: Time): (r: seq<Event>)
    ensures |r| == |outbox|
  {
    if i < |outbox| then outbox[i := PublishedEvent(outbox[i], now)] else outbox
  }

  // ----- events of a document -----

  /** The payloads written for a document, in commit order. */
  function EventsOf(outbox: seq<Event>, id: DocId): seq<Envelope> {
    if outbox == [] then []
    else
      var n := |outbox| - 1;
      EventsOf(outbox[..n], id) + if outbox[n].docId == id then [outbox[n].payload] else []
  }

  lemma EventsOfAppend(outbox: seq<Event>, e: Event, id: DocId)
    ensures EventsOf(outbox + [e], id) == EventsOf(outbox, id) + if e.docId == id then [e.payload] else []
  {
    assert (outbox + [e])[..|outbox|] == outbox;
  }

  /** Same rows, whatever happened to their leases. */
  ghost predicate SameRows(a: seq<Event>, b: seq<Event>) {
    |a| == |b| && forall i :: 0 <= i < |a| ==>
      a[i].docId == b[i].docId && a[i].payload == b[i].payload && a[i].createdAt == b[i].createdAt
  }

  lemma {:induction false} LeasesKeepEvents(a: seq<Event>, b: seq<Event>, id: DocId)
    requires SameRows(a, b)
    ensures EventsOf(a, id) == EventsOf(b, id)
  {
    if a != [] {
      var n := |a| - 1;
      assert a[..n][..] == a[..n] && SameRows(a[..n], b[..n]);
      LeasesKeepEvents(a[..n], b[..n], id);
    }
  }
}
