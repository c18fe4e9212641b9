/** The data access object of src/ocr_engine/repo/store.py: each method runs one statement or transaction. */
module Stores {
  import opened Prelude
  import opened Statuses
  import opened Documents
  import opened Envelopes
  import opened Tables

  /** How a transaction ends: it commits, it rolls back and raises, or it commits and the answer is lost. */
  datatype Fault = Fine | RollsBack | CommitsThenRaises

  class Store {
    var documents: map<DocId, Row>
    var outbox: seq<Event>
    /** The database clock, which every statement reads as now(). */
    var clock: Time

    constructor ()
      ensures Contents() == Tables(map[], []) && Valid()
    {
      documents, outbox, clock := map[], [], 0;
    }

    function Contents(): Tables
      reads this
    {
      Tables(documents, outbox)
    }

    /** Keys are unique, and events were created in order. */
    ghost predicate Valid()
      reads this
    {
      UniqueKeys(documents) && InOrder(outbox, clock)
    }

    method Elapse(d: nat)
      requires Valid()
      modifies this`clock
      ensures Valid() && clock == old(clock) + d
    {
      clock := clock + d;
    }

    method SubmitDocument(id: DocId, s: Submission) returns (inserted: bool)
      requires Valid()
      modifies this`documents
      ensures Valid()
      ensures inserted <==> Insertable(old(documents), id, s.key)
      ensures documents == if inserted then old(documents)[id := QueuedRow(s, clock)] else old(documents)
      ensures inserted <==> id !in old(documents) && !exists d :: d in old(documents) && old(documents)[d].submission.key == s.key
      ensures inserted ==>
        && documents.Keys == old(documents).Keys + {id}
        && documents[id] == Row(s, Queued, None, None, None, None, None, clock, clock)
        && forall d :: d in old(documents) ==> documents[d] == old(documents)[d]
    {
      if id in documents || exists d :: d in documents && documents[d].submission.key == s.key {
        return false; // a unique constraint is violated
      }
      documents := documents[id := QueuedRow(s, clock)];
      return true;
    }

    method GetIdempotentDocument(key: nat) returns (r: Option<(DocId, Row)>)
      requires Valid()
      ensures r.Some? ==> r.value.0 in documents && documents[r.value.0] == r.value.1 && r.value.1.submission.key == key
      ensures r.None? ==> forall d :: d in documents ==> documents[d].submission.key != key
    {
      if exists d :: d in documents && documents[d].submission.key == key {
        UniqueHolder(documents, key);
        var d :| d in documents && documents[d].submission.key == key;
        return Some((d, documents[d]));
      }
      return None;
    }

    method GetDocument(id: DocId) returns (r: Option<Row>)
      ensures r == if id in documents then Some(documents[id]) else None
    {
      return if id in documents then Some(documents[id]) else None;
    }

    method MarkProcessing(id: DocId)
      requires Valid()
      modifies this`documents
      ensures Valid() && documents == MarkedProcessing(old(documents), id, clock)
      ensures documents.Keys == old(documents).Keys
      ensures forall d :: d in documents && d != id ==> documents[d] == old(documents)[d]
      ensures id in documents ==>
        documents[id] == if old(documents)[id].status == Queued
                         then old(documents)[id].(status := Processing, updatedAt := clock) else old(documents)[id]
    {
      if id in documents && documents[id].status == Queued {
        documents := documents[id := documents[id].(status := Processing, updatedAt := clock)];
      }
    }

    method FinishDocument(id: DocId, o: Outcome, payload: Envelope, topic: string, traceId: Option<string>, fault: Fault)
      returns (raised: bool)
      requires Valid()
      modifies this`documents, this`outbox
      ensures Valid() && raised == !fault.Fine?
      ensures Contents() ==
        if fault.RollsBack? then old(Contents()) else Concluded(old(Contents()), id, o, payload, topic, traceId, clock)
      ensures documents.Keys == old(documents).Keys && forall d :: d in documents && d != id ==> documents[d] == old(documents)[d]
      ensures !fault.RollsBack? ==> outbox == old(outbox) + [Event(id, payload, topic, traceId, clock, None, 0, None, None, None)]
      ensures !fault.RollsBack? && id in documents ==>
        && var was := old(documents)[id];
        && var (code, message) := match o.error
                                  case Some(e) => (Some(e.code), Some(e.message))
                                  case None => (None, None);
        documents[id] == Row(was.submission, o.status, o.result, o.avgConfidence, code, message, Some(clock), was.createdAt, clock)
    {
      var documentsBefore, outboxBefore := documents, outbox;
      if id in documents {
        documents := documents[id := FinishedRow(documents[id], o, clock)];
      }
      outbox := outbox + [NewEvent(id, payload, topic, traceId, clock)];
      if fault.RollsBack? {
        documents, outbox := documentsBefore, outboxBefore;
      }
      return !fault.Fine?;
    }

    method DeleteDocument(id: DocId)
      requires Valid()
      modifies this`documents
      ensures Valid() && documents == old(documents) - {id}
    {
      documents := documents - {id};
    }

    method ListExpiredDocuments(olderThan: Time) returns (ids: seq<DocId>)
      requires Valid()
      ensures IsSweep(documents, olderThan, ids)
      ensures |ids| <= 100 && forall d <- ids ::
        d in documents && documents[d].processedAt.Some? && documents[d].processedAt.value < olderThan
      ensures forall d :: d in documents && documents[d].processedAt.Some? && documents[d].processedAt.value < olderThan && d !in ids ==>
        |ids| == 100 && forall e <- ids :: documents[e].processedAt.value <= documents[d].processedAt.value
    {
      ids := [];
      var left := set d | d in documents && Expired(documents, d, olderThan);
      while left != {} && |ids| < SWEEP_LIMIT
        invariant Sweeping(documents, olderThan, ids, left)
        decreases left
      {
        OldestExpired(documents, left);
        var d :| d in left && IsOldest(documents, left, d);
        TakeOldest(documents, olderThan, ids, left, d);
        ids, left := ids + [d], left - {d};
      }
      SweepingIsSweep(documents, olderThan, ids, left);
    }

    method PurgeDocumentResults(ids: seq<DocId>)
      requires Valid()
      modifies this`documents
      ensures Valid() && documents == Purged(old(documents), ids, clock) && documents.Keys == old(documents).Keys
      ensures forall d :: d in documents && d !in ids ==> documents[d] == old(documents)[d]
      ensures forall d :: d in documents && d in ids ==>
        documents[d] == old(documents)[d].(result := None, errorMessage := None, updatedAt := clock)
    {
      documents := Purged(documents, ids, clock);
    }

    /** Claims the oldest eligible rows, at most `batch`. The statement returns them in no particular order. */
    method ClaimPendingOutbox(worker: string, batch: nat) returns (ids: seq<nat>)
      requires Valid()
      modifies this`outbox
      ensures Valid() && IsClaim(old(outbox), clock, batch, ids)
      ensures outbox == Claimed(old(outbox), ids, worker, clock)
      ensures LeasedTo(old(outbox), outbox, ids, worker, batch, clock)
    {
      ids := [];
      var rows := outbox;
      for i := 0 to |rows|
        invariant ids == Oldest(rows, clock, batch, i)
      {
        if Eligible(rows[i], clock) && |ids| < batch {
          ids := ids + [i];
        }
      }
      OldestIsClaim(rows, clock, batch);
      LeasesKeepOrder(rows, Claimed(rows, ids, worker, clock), clock);
      ClaimLeases(rows, ids, worker, batch, clock);
      outbox := Claimed(rows, ids, worker, clock);
    }

    method MarkPublished(i: nat)
      requires Valid()
      modifies this`outbox
      ensures Valid() && outbox == MarkedPublished(old(outbox), i, clock)
      ensures i < |outbox| ==>
        outbox[i] == old(outbox)[i].(publishedAt := Some(clock), lockedAt := None, lockedBy := None)
      ensures |outbox| == |old(outbox)| && forall j :: 0 <= j < |outbox| && j != i ==> outbox[j] == old(outbox)[j]
    {
      if i < |outbox| {
        outbox := outbox[i := PublishedEvent(outbox[i], clock)];
      }
    }
  }

  /** Unpublished, not put off, and not leased within the last sixty seconds, in microseconds. */
  predicate Claimable(e: Event, now: Time) {
    && e.publishedAt == None
    && !(e.nextAttemptAt.Some? && e.nextAttemptAt.value > now)
    && !(e.lockedAt.Some? && now - e.lockedAt.value <= 60_000_000)
  }

  /** The rows taken could be claimed, and are leased to the worker from now on; the others stay as they are, and can only
    * be claimed if the batch is full of rows no younger. */
  ghost predicate LeasedTo(before: seq<Event>, after: seq<Event>, ids: seq<nat>, worker: string, batch: nat, now: Time) {
    && |after| == |before| && |ids| <= batch
    && (forall i <- ids :: i < |before| && Claimable(before[i], now))
    && (forall i :: 0 <= i < |after| ==>
          after[i] == if i in ids
                      then before[i].(lockedBy := Some(worker), lockedAt := Some(now), attemptCount := before[i].attemptCount + 1)
                      else before[i])
    && (forall i :: 0 <= i < |before| && i !in ids && Claimable(before[i], now) ==>
          |ids| == batch && forall j <- ids :: before[j].createdAt <= before[i].createdAt)
  }

  lemma {:induction false} ClaimLeases(outbox: seq<Event>, ids: seq<nat>, worker: string, batch: nat, now: Time)
    requires IsClaim(outbox, now, batch, ids)
    ensures LeasedTo(outbox, Claimed(outbox, ids, worker, now), ids, worker, batch, now)
  {
    var eligible := set i | 0 <= i < |outbox| && Eligible(outbox[i], now);
    forall i | 0 <= i < |outbox| && i !in ids && Claimable(outbox[i], now)
      ensures |ids| == batch && forall j <- ids :: outbox[j].createdAt <= outbox[i].createdAt
    {
      assert i in eligible;
      if |ids| < batch {
        AllOfThem(ids, eligible, i);
      }
    }
  }

  lemma {:induction false} AllOfThem(ids: seq<nat>, s: set<nat>, i: nat)
    requires NoDuplicates(ids) && (forall j <- ids :: j in s) && i in s && i !in ids
    ensures |ids| < |s|
  {
    DistinctCount(ids);
    assert i !in Members(ids);
    SubsetCount(Members(ids) + {i}, s);
  }

  ghost predicate UniqueKeys(documents: map<DocId, Row>) {
    forall d, e :: d in documents && e in documents && documents[d].submission.key == documents[e].submission.key ==> d == e
  }

  lemma UniqueHolder(documents: map<DocId, Row>, key: nat)
    requires UniqueKeys(documents)
    ensures forall d, e ::
      (d in documents && documents[d].submission.key == key && e in documents && documents[e].submission.key == key) ==> d == e
  {
  }

  ghost predicate InOrder(outbox: seq<Event>, now: Time) {
    && (forall i, j :: 0 <= i < j < |outbox| ==> outbox[i].createdAt <= outbox[j].createdAt)
    && (forall i :: 0 <= i < |outbox| ==> outbox[i].createdAt <= now)
  }

  lemma LeasesKeepOrder(a: seq<Event>, b: seq<Event>, now: Time)
    requires InOrder(a, now) && SameRows(a, b)
    ensures InOrder(b, now)
  {
  }

  predicate IsOldest(documents: map<DocId, Row>, left: set<DocId>, d: DocId)
    requires forall e <- left :: e in documents && documents[e].processedAt.Some?
  {
    d in left && forall e :: e in left ==> documents[d].processedAt.value <= documents[e].processedAt.value
  }

  lemma {:induction false} OldestExpired(documents: map<DocId, Row>, left: set<DocId>)
    requires left != {} && forall d <- left :: d in documents && documents[d].processedAt.Some?
    ensures exists d :: IsOldest(documents, left, d)
    decreases left
  {
    var d :| d in left;
    if left - {d} != {} {
      OldestExpired(documents, left - {d});
      var c :| IsOldest(documents, left - {d}, c);
      var m := if documents[d].processedAt.value <= documents[c].processedAt.value then d else c;
      assert IsOldest(documents, left, m) by {
        forall e | e in left ensures documents[m].processedAt.value <= documents[e].processedAt.value {
          assert e == d || e in left - {d};
        }
      }
    } else {
      assert left == {d};
      assert IsOldest(documents, left, d);
    }
  }

  /** `ids` are the oldest expired rows, in order, and `left` the other ones. */
  ghost predicate Sweeping(documents: map<DocId, Row>, cutoff: Time, ids: seq<DocId>, left: set<DocId>) {
    && NoDuplicates(ids) && |ids| <= SWEEP_LIMIT
    && Members(ids) !! left
    && Members(ids) + left == (set d | d in documents && Expired(documents, d, cutoff))
    && (forall d :: d in ids || d in left ==> d in documents && documents[d].processedAt.Some?)
    && (forall d, e :: d in ids && e in left ==> documents[d].processedAt.value <= documents[e].processedAt.value)
  }

  lemma TakeOldest(documents: map<DocId, Row>, cutoff: Time, ids: seq<DocId>, left: set<DocId>, d: DocId)
    requires Sweeping(documents, cutoff, ids, left) && |ids| < SWEEP_LIMIT && IsOldest(documents, left, d)
    ensures Sweeping(documents, cutoff, ids + [d], left - {d})
  {
    assert d !in Members(ids) && Members(ids + [d]) == Members(ids) + {d};
  }

  lemma SweepingIsSweep(documents: map<DocId, Row>, cutoff: Time, ids: seq<DocId>, left: set<DocId>)
    requires Sweeping(documents, cutoff, ids, left) && (left == {} || |ids| == SWEEP_LIMIT)
    ensures IsSweep(documents, cutoff, ids)
  {
    var expired := set d | d in documents && Expired(documents, d, cutoff);
    DistinctCount(ids);
    assert |expired| == |ids| + |left|;
    forall d | d in ids ensures d in expired {
      assert d in Members(ids);
    }
    forall e | e in expired && e !in ids ensures e in left {
      assert e !in Members(ids);
    }
  }

  /** The positions of the first eligible rows among the first `n`, at most `batch`. */
  function Oldest(outbox: seq<Event>, now: Time, batch: nat, n: nat): seq<nat>
    requires n <= |outbox|
  {
    if n == 0 then []
    else
      var r := Oldest(outbox, now, batch, n - 1);
      if Eligible(outbox[n - 1], now) && |r| < batch then r + [n - 1] else r
  }

  /** The rows taken are eligible and in order; the others are later, or not eligible, and none is left out of a batch
    * that is not full. */
  lemma {:induction false} OldestTakesTheFirst(outbox: seq<Event>, now: Time, batch: nat, n: nat)
    requires n <= |outbox|
    ensures var r := Oldest(outbox, now, batch, n);
      && |r| <= batch && |r| <= n
      && (forall i :: 0 <= i < |r| ==> r[i] < n && Eligible(outbox[r[i]], now))
      && (forall i, j :: 0 <= i < j < |r| ==> r[i] < r[j])
      && (|r| < batch ==> forall i :: 0 <= i < n && Eligible(outbox[i], now) ==> i in r)
      && (forall i, j :: i in r && 0 <= j < n && Eligible(outbox[j], now) && j !in r ==> i < j)
  {
    if n > 0 {
      OldestTakesTheFirst(outbox, now, batch, n - 1);
    }
  }

  ghost function Members(s: seq<nat>): set<nat> {
    set i | i in s
  }

  lemma {:induction false} DistinctCount(s: seq<nat>)
    requires NoDuplicates(s)
    ensures |Members(s)| == |s|
  {
    if s != [] {
      var n := |s| - 1;
      DistinctCount(s[..n]);
      assert s == s[..n] + [s[n]];
      assert Members(s) == Members(s[..n]) + {s[n]};
      assert s[n] !in s[..n];
    }
  }

  /** Taking the first eligible rows is an answer of the claim statement. */
  lemma OldestIsClaim(outbox: seq<Event>, now: Time, batch: nat)
    requires forall i, j :: 0 <= i < j < |outbox| ==> outbox[i].createdAt <= outbox[j].createdAt
    ensures IsClaim(outbox, now, batch, Oldest(outbox, now, batch, |outbox|))
  {
    var ids := Oldest(outbox, now, batch, |outbox|);
    OldestTakesTheFirst(outbox, now, batch, |outbox|);
    var eligible := set i | 0 <= i < |outbox| && Eligible(outbox[i], now);
    DistinctCount(ids);
    assert Members(ids) <= eligible;
    if |ids| < batch {
      assert Members(ids) == eligible;
    } else {
      SubsetCount(Members(ids), eligible);
    }
  }

  lemma {:induction false} SubsetCount(a: set<nat>, b: set<nat>)
    requires a <= b
    ensures |a| <= |b|
  {
    assert b == a + (b - a);
  }
}
