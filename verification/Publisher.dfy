/** The publisher of src/ocr_engine/events/publisher.py: a tick claims a batch, hands each row over and marks it. */
module Publishing {
  import opened Prelude
  import opened Documents
  import opened Envelopes
  import opened Tables
  import opened Stores

  // ----- messages -----

  /** The headers that vary; event version, source service and aggregate type are the same on every message. */
  datatype Headers = Headers(eventId: nat, eventType: string, aggregateId: DocId, traceId: Option<string>)

  datatype Message = Message(topic: string, key: DocId, payload: Envelope, headers: Headers)

  function HeadersOf(e: Event): Headers {
    Headers(e.payload.eventId, e.payload.eventType, e.docId,
            if e.traceId.Some? && |e.traceId.value| > 0 then e.traceId else None)
  }

  function MessageOf(e: Event, topicDefault: string): Message {
    Message(if |e.topic| > 0 then e.topic else topicDefault, e.docId, e.payload, HeadersOf(e))
  }

  /** What consumers rely on: the message of a row carries its payload, is keyed by its document, and goes to its topic. */
  predicate Conveys(m: Message, e: Event, topicDefault: string) {
    && m.topic == (if e.topic == "" then topicDefault else e.topic)
    && m.key == e.docId && m.payload == e.payload
    && m.headers.aggregateId == e.docId
    && m.headers.eventId == e.payload.eventId && m.headers.eventType == e.payload.eventType
    && m.headers.traceId == (if e.traceId == Some("") then None else e.traceId)
  }

  // ----- a tick -----

  /** What goes wrong at a row: before it is handed over, between handover and mark, or after the mark landed. */
  datatype Trouble = NotProduced | NotMarked | MarkedThenRaised

  /** The row of the batch where a tick raises, if it gets that far. */
  datatype Upset = Upset(row: nat, trouble: Trouble)

  predicate Raises(ids: seq<nat>, upset: Option<Upset>) {
    upset.Some? && upset.value.row < |ids|
  }

  /** How many rows of the batch are handed to the producer. */
  function Produced(ids: seq<nat>, upset: Option<Upset>): (r: nat)
    ensures r <= |ids|
  {
    if !Raises(ids, upset) then |ids|
    else upset.value.row + if upset.value.trouble.NotProduced? then 0 else 1
  }

  /** How many rows of the batch are marked published. */
  function Done(ids: seq<nat>, upset: Option<Upset>): (r: nat)
    ensures r <= Produced(ids, upset)
  {
    if !Raises(ids, upset) then |ids|
    else upset.value.row + if upset.value.trouble.MarkedThenRaised? then 1 else 0
  }

  /** The outbox once the first `k` rows of a batch are marked. */
  function Marked(outbox: seq<Event>, ids: seq<nat>, k: nat, now: Time): (r: seq<Event>)
    requires k <= |ids|
    ensures |r| == |outbox|
  {
    if k == 0 then outbox else MarkedPublished(Marked(outbox, ids, k - 1, now), ids[k - 1], now)
  }

  predicate Within(ids: seq<nat>, outbox: seq<Event>) {
    forall k :: 0 <= k < |ids| ==> ids[k] < |outbox|
  }

  /** The log once the first `k` rows of a batch are handed over. */
  function HandedOver(log: seq<Message>, outbox: seq<Event>, ids: seq<nat>, k: nat, topicDefault: string): seq<Message>
    requires Within(ids, outbox) && k <= |ids|
  {
    if k == 0 then log
    else HandedOver(log, outbox, ids, k - 1, topicDefault) + [MessageOf(outbox[ids[k - 1]], topicDefault)]
  }

  /** The log grows by one message for each of those rows, in order. */
  lemma {:induction false} HandedOverInOrder(log: seq<Message>, outbox: seq<Event>, ids: seq<nat>, k: nat, topicDefault: string)
    requires Within(ids, outbox) && k <= |ids|
    ensures var r := HandedOver(log, outbox, ids, k, topicDefault);
      && |r| == |log| + k && r[..|log|] == log
      && forall i :: 0 <= i < k ==> r[|log| + i] == MessageOf(outbox[ids[i]], topicDefault)
  {
    if k > 0 {
      HandedOverInOrder(log, outbox, ids, k - 1, topicDefault);
    }
  }

  /** The new messages are those of the first rows of the batch, in its order: of all of them, or of those up to the row
    * where the tick raises, that row among them unless it raised before the handover. */
  ghost predicate TellsInOrder(before: seq<Message>, log: seq<Message>, outbox: seq<Event>, ids: seq<nat>, upset: Option<Upset>,
                               topicDefault: string)
    requires Within(ids, outbox)
  {
    && before <= log
    && |log| - |before| == (match upset
                            case None => |ids|
                            case Some(Upset(row, trouble)) =>
                              if row >= |ids| then |ids| else if trouble == NotProduced then row else row + 1)
    && forall i :: 0 <= i < |log| - |before| && i < |ids| ==> Conveys(log[|before| + i], outbox[ids[i]], topicDefault)
  }

  lemma {:induction false} HandedOverTells(log: seq<Message>, outbox: seq<Event>, ids: seq<nat>, upset: Option<Upset>, topicDefault: string)
    requires Within(ids, outbox)
    ensures TellsInOrder(log, HandedOver(log, outbox, ids, Produced(ids, upset), topicDefault), outbox, ids, upset, topicDefault)
  {
    var k := Produced(ids, upset);
    HandedOverInOrder(log, outbox, ids, k, topicDefault);
    var r := HandedOver(log, outbox, ids, k, topicDefault);
    forall i | 0 <= i < k ensures Conveys(r[|log| + i], outbox[ids[i]], topicDefault) {
      assert r[|log| + i] == MessageOf(outbox[ids[i]], topicDefault);
    }
  }

  /** The outbox after a tick that claimed `ids`. */
  function Ticked(outbox: seq<Event>, ids: seq<nat>, name: string, upset: Option<Upset>, now: Time): (r: seq<Event>)
    ensures |r| == |outbox|
  {
    Marked(Claimed(outbox, ids, name, now), ids, Done(ids, upset), now)
  }

  const BATCH: nat := 100

  /** A tick and the time until the next one. */
  datatype Tick = Tick(upset: Option<Upset>, wait: nat)

  /** When the k-th tick starts. */
  function StartOf(now: Time, ticks: seq<Tick>, k: nat): Time
    requires k <= |ticks|
  {
    if k == 0 then now else StartOf(now, ticks, k - 1) + ticks[k - 1].wait
  }

  /** A tick may claim any answer of the claim statement, in any order. */
  ghost predicate IsTickOf(a: seq<Event>, b: seq<Event>, name: string, batch: nat, upset: Option<Upset>, now: Time) {
    exists ids :: IsClaim(a, now, batch, ids) && b == Ticked(a, ids, name, upset, now)
  }

  ghost predicate IsTick(states: seq<seq<Event>>, name: string, batch: nat, now: Time, ticks: seq<Tick>, k: nat)
    requires k < |ticks| && k + 1 < |states|
  {
    IsTickOf(states[k], states[k + 1], name, batch, ticks[k].upset, StartOf(now, ticks, k))
  }

  /** The outbox before, between and after the first `n` ticks. */
  ghost predicate IsRun(states: seq<seq<Event>>, name: string, batch: nat, now: Time, ticks: seq<Tick>, n: nat)
    requires n <= |ticks|
  {
    |states| == n + 1 && forall k {:trigger IsTick(states, name, batch, now, ticks, k)} :: 0 <= k < n ==>
      IsTick(states, name, batch, now, ticks, k)
  }

  lemma RunExtends(states: seq<seq<Event>>, next: seq<Event>, name: string, batch: nat, now: Time, ticks: seq<Tick>, k: nat)
    requires k < |ticks| && IsRun(states, name, batch, now, ticks, k)
    requires IsTickOf(states[k], next, name, batch, ticks[k].upset, StartOf(now, ticks, k))
    ensures IsRun(states + [next], name, batch, now, ticks, k + 1)
    ensures (states + [next])[0] == states[0] && (states + [next])[k + 1] == next
  {
    forall i | 0 <= i < k ensures IsTick(states + [next], name, batch, now, ticks, i) {
      assert IsTick(states, name, batch, now, ticks, i);
    }
    assert IsTick(states + [next], name, batch, now, ticks, k);
  }

  class Publisher {
    const store: Store
    const topicDefault: string
    const name: string
    /** What the producer was handed, in order. */
    var log: seq<Message>

    constructor (store: Store, topicDefault: string, name: string)
      ensures this.store == store && this.topicDefault == topicDefault && this.name == name && log == []
    {
      this.store, this.topicDefault, this.name, log := store, topicDefault, name, [];
    }

    /** Claims a batch, whichever answer the claim statement gives, and publishes it row by row, up to a row where it
      * raises; None if it does. */
    method PollOnce(batch: nat, upset: Option<Upset>) returns (published: Option<nat>, ghost ids: seq<nat>)
      requires store.Valid()
      modifies this`log, store`outbox
      ensures store.Valid() && IsClaim(old(store.outbox), store.clock, batch, ids) && Within(ids, old(store.outbox))
      ensures store.outbox == Ticked(old(store.outbox), ids, name, upset, store.clock)
      ensures log == HandedOver(old(log), old(store.outbox), ids, Produced(ids, upset), topicDefault)
      ensures TellsInOrder(old(log), log, old(store.outbox), ids, upset, topicDefault)
      ensures published == if upset.Some? && upset.value.row < |ids| then None else Some(|ids|)
    {
      var claimed := store.ClaimPendingOutbox(name, batch);
      ids := claimed;
      ClaimsAreWithin(old(store.outbox), store.clock, batch, ids);
      published := PublishAll(claimed, upset);
      ClaimsKeepMessages(old(log), old(store.outbox), ids, Produced(ids, upset), name, store.clock, topicDefault);
      HandedOverTells(old(log), old(store.outbox), ids, upset, topicDefault);
    }

    /** Ticks until told to stop; a tick that raises is logged and the next one goes on. */
    method Run(ticks: seq<Tick>) returns (ghost states: seq<seq<Event>>)
      requires store.Valid()
      modifies this`log, store`outbox, store`clock
      ensures store.Valid() && IsRun(states, name, 100, old(store.clock), ticks, |ticks|)
      ensures states[0] == old(store.outbox) && states[|ticks|] == store.outbox
    {
      ghost var start := store.clock;
      states := [store.outbox];
      for k := 0 to |ticks|
        invariant store.Valid() && store.clock == StartOf(start, ticks, k)
        invariant IsRun(states, name, BATCH, start, ticks, k)
        invariant states[0] == old(store.outbox) && states[k] == store.outbox
      {
        states := TickOnce(ticks, k, states, start);
      }
    }

    /** The k-th tick, and the pause after it. */
    method TickOnce(ticks: seq<Tick>, k: nat, ghost states: seq<seq<Event>>, ghost start: Time)
      returns (ghost more: seq<seq<Event>>)
      requires store.Valid() && k < |ticks| && store.clock == StartOf(start, ticks, k)
      requires IsRun(states, name, BATCH, start, ticks, k) && states[k] == store.outbox
      modifies this`log, store`outbox, store`clock
      ensures store.Valid() && store.clock == StartOf(start, ticks, k + 1)
      ensures IsRun(more, name, BATCH, start, ticks, k + 1) && more[0] == states[0] && more[k + 1] == store.outbox
    {
      var _, ids := PollOnce(BATCH, ticks[k].upset);
      RunExtends(states, store.outbox, name, BATCH, start, ticks, k);
      more := states + [store.outbox];
      store.Elapse(ticks[k].wait);
    }

    /** Hands each claimed row over, and marks it, in turn. */
    method PublishAll(ids: seq<nat>, upset: Option<Upset>) returns (published: Option<nat>)
      requires store.Valid() && Within(ids, store.outbox)
      modifies this`log, store`outbox
      ensures store.Valid()
      ensures store.outbox == Marked(old(store.outbox), ids, Done(ids, upset), store.clock)
      ensures log == HandedOver(old(log), old(store.outbox), ids, Produced(ids, upset), topicDefault)
      ensures published == if Raises(ids, upset) then None else Some(|ids|)
    {
      var rows := store.outbox;
      for k := 0 to |ids|
        invariant store.Valid() && (upset.Some? ==> k <= upset.value.row)
        invariant store.outbox == Marked(rows, ids, k, store.clock)
        invariant log == HandedOver(old(log), rows, ids, k, topicDefault)
      {
        var trouble := if upset.Some? && upset.value.row == k then Some(upset.value.trouble) else None;
        var raised := PublishOne(ids[k], rows[ids[k]], trouble);
        Round(old(log), rows, ids, upset, k, topicDefault, store.clock);
        if raised {
          return None;
        }
      }
      return Some(|ids|);
    }

    method PublishOne(i: nat, row: Event, trouble: Option<Trouble>) returns (raised: bool)
      requires store.Valid()
      modifies this`log, store`outbox
      ensures store.Valid() && raised == trouble.Some?
      ensures trouble == Some(NotProduced) ==> log == old(log) && store.outbox == old(store.outbox)
      ensures trouble == Some(NotMarked) ==>
        log == old(log) + [MessageOf(row, topicDefault)] && store.outbox == old(store.outbox)
      ensures trouble == None || trouble == Some(MarkedThenRaised) ==>
        && log == old(log) + [MessageOf(row, topicDefault)]
        && store.outbox == MarkedPublished(old(store.outbox), i, store.clock)
    {
      if trouble == Some(NotProduced) {
        return true;
      }
      HandOver(row);
      if trouble == Some(NotMarked) {
        return true;
      }
      store.MarkPublished(i);
      return trouble.Some?;
    }

    method HandOver(row: Event)
      modifies this`log
      ensures log == old(log) + [MessageOf(row, topicDefault)]
    {
      log := log + [Message(if |row.topic| > 0 then row.topic else topicDefault, row.docId, row.payload, HeadersOf(row))];
    }
  }

  /** One round of the loop: where it raises, that is all the tick hands over and marks; else it is one row more. */
  lemma {:induction false} Round(log: seq<Message>, rows: seq<Event>, ids: seq<nat>, upset: Option<Upset>, k: nat, topicDefault: string,
                                 now: Time)
    requires k < |ids| && Within(ids, rows) && (upset.Some? ==> k <= upset.value.row)
    ensures HandedOver(log, rows, ids, k + 1, topicDefault)
         == HandedOver(log, rows, ids, k, topicDefault) + [MessageOf(rows[ids[k]], topicDefault)]
    ensures Marked(rows, ids, k + 1, now) == MarkedPublished(Marked(rows, ids, k, now), ids[k], now)
    ensures upset.Some? && upset.value.row == k ==>
      && Raises(ids, upset)
      && Produced(ids, upset) == (if upset.value.trouble.NotProduced? then k else k + 1)
      && Done(ids, upset) == (if upset.value.trouble.MarkedThenRaised? then k + 1 else k)
  {
  }

  lemma ClaimsAreWithin(outbox: seq<Event>, now: Time, batch: nat, ids: seq<nat>)
    requires IsClaim(outbox, now, batch, ids)
    ensures Within(ids, outbox)
  {
    forall k | 0 <= k < |ids| ensures ids[k] < |outbox| {
      assert ids[k] in ids;
    }
  }

  /** A lease does not show in a message. */
  lemma {:induction false} ClaimsKeepMessages(log: seq<Message>, outbox: seq<Event>, ids: seq<nat>, k: nat, name: string,
                                              now: Time, topicDefault: string)
    requires Within(ids, outbox) && k <= |ids|
    ensures HandedOver(log, Claimed(outbox, ids, name, now), ids, k, topicDefault) == HandedOver(log, outbox, ids, k, topicDefault)
  {
    if k > 0 {
      ClaimsKeepMessages(log, outbox, ids, k - 1, name, now, topicDefault);
    }
  }

  lemma {:induction false} MarkedAt(outbox: seq<Event>, ids: seq<nat>, k: nat, now: Time, i: nat)
    requires k <= |ids| && i < |outbox|
    ensures Marked(outbox, ids, k, now)[i] == if i in ids[..k] then PublishedEvent(outbox[i], now) else outbox[i]
  {
    if k > 0 {
      MarkedAt(outbox, ids, k - 1, now, i);
      assert ids[..k] == ids[..k - 1] + [ids[k - 1]];
    }
  }

  lemma {:induction false} TickedAt(outbox: seq<Event>, ids: seq<nat>, name: string, upset: Option<Upset>, now: Time, i: nat)
    requires i < |outbox|
    ensures Ticked(outbox, ids, name, upset, now)[i] ==
      if i !in ids then outbox[i]
      else if i in ids[..Done(ids, upset)] then PublishedEvent(ClaimedEvent(outbox[i], name, now), now)
      else ClaimedEvent(outbox[i], name, now)
  {
    MarkedAt(Claimed(outbox, ids, name, now), ids, Done(ids, upset), now, i);
    assert i in ids[..Done(ids, upset)] ==> i in ids;
  }

  /** A tick, row by row: the rows of the batch before the one where it raises are published, and that one too if its mark
    * landed; the rest of the batch is leased; every other row is as before. */
  lemma {:induction false} TickRowByRow(outbox: seq<Event>, ids: seq<nat>, name: string, batch: nat, upset: Option<Upset>, now: Time, i: nat)
    requires IsClaim(outbox, now, batch, ids) && i < |outbox|
    ensures var a, b := outbox[i], Ticked(outbox, ids, name, upset, now)[i];
      && (i !in ids ==> b == a)
      && forall k :: 0 <= k < |ids| && ids[k] == i ==>
        if upset.None? || k < upset.value.row || (k == upset.value.row && upset.value.trouble == MarkedThenRaised)
        then b == a.(publishedAt := Some(now), lockedAt := None, lockedBy := None, attemptCount := a.attemptCount + 1)
        else b == a.(lockedAt := Some(now), lockedBy := Some(name), attemptCount := a.attemptCount + 1)
  {
    TickedAt(outbox, ids, name, upset, now, i);
    var done := Done(ids, upset);
    forall k | 0 <= k < |ids| && ids[k] == i ensures i in ids && (i in ids[..done] <==> k < done) {
      if k < done {
        assert ids[..done][k] == i;
      } else {
        assert forall j :: 0 <= j < done ==> ids[..done][j] == ids[j] && ids[j] != ids[k];
      }
    }
  }

  // ----- what a tick does to the rows pending -----

  ghost function PendingRows(outbox: seq<Event>): set<nat> {
    set i | 0 <= i < |outbox| && outbox[i].publishedAt.None?
  }

  ghost function Pending(outbox: seq<Event>): nat {
    |PendingRows(outbox)|
  }

  ghost function EligibleRows(outbox: seq<Event>, now: Time): set<nat> {
    set i | 0 <= i < |outbox| && Eligible(outbox[i], now)
  }

  /** Whatever goes wrong, the rows pending are those pending before without those marked; there are never more. */
  lemma {:induction false} TickConserves(outbox: seq<Event>, ids: seq<nat>, name: string, batch: nat, upset: Option<Upset>, now: Time)
    requires IsClaim(outbox, now, batch, ids)
    ensures var after := Ticked(outbox, ids, name, upset, now);
      && PendingRows(after) == PendingRows(outbox) - Members(ids[..Done(ids, upset)])
      && Pending(after) == Pending(outbox) - Done(ids, upset)
  {
    var after := Ticked(outbox, ids, name, upset, now);
    var done := ids[..Done(ids, upset)];
    assert forall i :: i in done ==> i in ids;
    forall i | 0 <= i < |outbox| ensures after[i].publishedAt.None? <==> outbox[i].publishedAt.None? && i !in done {
      TickedAt(outbox, ids, name, upset, now, i);
    }
    DistinctCount(done);
    assert Members(done) <= PendingRows(outbox);
    assert PendingRows(after) == PendingRows(outbox) - Members(done);
  }

  /** What is pending once that many rows could be published. */
  function Left(pending: nat, capacity: nat): nat {
    if pending < capacity then 0 else pending - capacity
  }

  /** Every unpublished row can be claimed: no lease is held. */
  ghost predicate Unleased(outbox: seq<Event>, now: Time) {
    forall i :: 0 <= i < |outbox| && outbox[i].publishedAt.None? ==> Eligible(outbox[i], now)
  }

  lemma LaterUnleased(outbox: seq<Event>, now: Time, later: Time)
    requires Unleased(outbox, now) && now <= later
    ensures Unleased(outbox, later)
  {
  }

  /** A tick without trouble publishes exactly as many rows as the batch and the leases allow. */
  lemma {:induction false} TickPublishes(a: seq<Event>, b: seq<Event>, name: string, batch: nat, now: Time)
    requires IsTickOf(a, b, name, batch, None, now)
    ensures var eligible := |EligibleRows(a, now)|;
      Pending(b) == Pending(a) - (if eligible < batch then eligible else batch)
    ensures Unleased(a, now) ==> Pending(b) == Left(Pending(a), batch)
  {
    var ids :| IsClaim(a, now, batch, ids) && b == Ticked(a, ids, name, None, now);
    TickConserves(a, ids, name, batch, None, now);
    if Unleased(a, now) {
      assert EligibleRows(a, now) == PendingRows(a);
    }
  }

  /** A row still pending after a tick has the lease it had before, or that of the tick, if it raised. */
  ghost predicate LeaseFrom(a: Event, b: Event, raised: bool, now: Time) {
    && a.publishedAt.None? && b.nextAttemptAt == a.nextAttemptAt
    && (b.lockedAt == a.lockedAt || (raised && b.lockedAt == Some(now)))
  }

  lemma {:induction false} TickLeases(a: seq<Event>, b: seq<Event>, name: string, batch: nat, upset: Option<Upset>, now: Time, i: nat)
    requires IsTickOf(a, b, name, batch, upset, now) && i < |b| && b[i].publishedAt.None?
    ensures |b| == |a| && LeaseFrom(a[i], b[i], upset.Some?, now)
  {
    var ids :| IsClaim(a, now, batch, ids) && b == Ticked(a, ids, name, upset, now);
    TickedAt(a, ids, name, upset, now, i);
    assert ids[..|ids|] == ids;
  }

  // ----- what a run does to them -----

  lemma {:induction false} Later(now: Time, ticks: seq<Tick>, j: nat, k: nat)
    requires j <= k <= |ticks|
    ensures StartOf(now, ticks, j) <= StartOf(now, ticks, k)
    decreases k
  {
    if j < k {
      Later(now, ticks, j, k - 1);
    }
  }

  /** The rows pending never grow in number. */
  lemma {:induction false} PendingNeverGrows(states: seq<seq<Event>>, name: string, batch: nat, now: Time, ticks: seq<Tick>, j: nat, k: nat)
    requires j <= k <= |ticks| && IsRun(states, name, batch, now, ticks, |ticks|)
    ensures |states[k]| == |states[j]| && PendingRows(states[k]) <= PendingRows(states[j]) && Pending(states[k]) <= Pending(states[j])
    decreases k
  {
    if j < k {
      PendingNeverGrows(states, name, batch, now, ticks, j, k - 1);
      assert IsTick(states, name, batch, now, ticks, k - 1);
      OnlyLess(states[k - 1], states[k], name, batch, ticks[k - 1].upset, StartOf(now, ticks, k - 1));
    }
  }

  lemma {:induction false} OnlyLess(a: seq<Event>, b: seq<Event>, name: string, batch: nat, upset: Option<Upset>, now: Time)
    requires IsTickOf(a, b, name, batch, upset, now)
    ensures |b| == |a| && PendingRows(b) <= PendingRows(a) && Pending(b) <= Pending(a)
  {
    var ids :| IsClaim(a, now, batch, ids) && b == Ticked(a, ids, name, upset, now);
    TickConserves(a, ids, name, batch, upset, now);
  }

  predicate Disturbed(ticks: seq<Tick>, j: nat)
    requires j < |ticks|
  {
    ticks[j].upset.Some?
  }

  /** The lease of a row still pending: the one it started with, or that of an earlier disturbed tick. */
  ghost predicate LeaseKnown(first: Event, e: Event, now: Time, ticks: seq<Tick>, n: nat)
    requires n <= |ticks|
  {
    && first.publishedAt.None? && e.nextAttemptAt == first.nextAttemptAt
    && (e.lockedAt == first.lockedAt
        || exists j :: 0 <= j < n && Disturbed(ticks, j) && e.lockedAt == Some(StartOf(now, ticks, j)))
  }

  lemma {:induction false} LeasesKnown(states: seq<seq<Event>>, name: string, batch: nat, now: Time, ticks: seq<Tick>, n: nat, i: nat)
    requires n <= |ticks| && IsRun(states, name, batch, now, ticks, |ticks|)
    requires i < |states[n]| && states[n][i].publishedAt.None?
    ensures i < |states[0]| && LeaseKnown(states[0][i], states[n][i], now, ticks, n)
  {
    if n > 0 {
      assert IsTick(states, name, batch, now, ticks, n - 1);
      TickLeases(states[n - 1], states[n], name, batch, ticks[n - 1].upset, StartOf(now, ticks, n - 1), i);
      LeasesKnown(states, name, batch, now, ticks, n - 1, i);
      LeaseMovesOn(states[0][i], states[n - 1][i], states[n][i], now, ticks, n - 1);
    }
  }

  lemma LeaseMovesOn(first: Event, a: Event, b: Event, now: Time, ticks: seq<Tick>, k: nat)
    requires k < |ticks| && LeaseKnown(first, a, now, ticks, k) && LeaseFrom(a, b, Disturbed(ticks, k), StartOf(now, ticks, k))
    ensures LeaseKnown(first, b, now, ticks, k + 1)
  {
  }

  /** At the n-th tick every earlier disturbed tick, and every lease held at the start, is more than a minute old. */
  ghost predicate Quiet(first: seq<Event>, now: Time, ticks: seq<Tick>, n: nat)
    requires n <= |ticks|
  {
    && Unleased(first, StartOf(now, ticks, n))
    && forall j :: 0 <= j < n && Disturbed(ticks, j) ==> StartOf(now, ticks, j) + MINUTE < StartOf(now, ticks, n)
  }

  /** Then no lease is held: however many ticks raised, and however soon the next ones followed, a row is held up no
    * longer than a minute after the last of them. */
  lemma {:induction false} LeasesExpire(states: seq<seq<Event>>, name: string, batch: nat, now: Time, ticks: seq<Tick>, n: nat)
    requires n <= |ticks| && IsRun(states, name, batch, now, ticks, |ticks|) && Quiet(states[0], now, ticks, n)
    ensures Unleased(states[n], StartOf(now, ticks, n))
  {
    forall i | 0 <= i < |states[n]| && states[n][i].publishedAt.None? ensures Eligible(states[n][i], StartOf(now, ticks, n)) {
      LeasesKnown(states, name, batch, now, ticks, n, i);
    }
  }

  /** How many rows that many ticks can publish. */
  function Capacity(batch: nat, ticks: nat): nat {
    if ticks == 0 then 0 else batch + Capacity(batch, ticks - 1)
  }

  lemma {:induction false} CapacityIs(batch: nat, ticks: nat)
    ensures Capacity(batch, ticks) == batch * ticks
  {
    if ticks > 0 {
      CapacityIs(batch, ticks - 1);
      assert batch * ticks == batch * (ticks - 1) + batch;
    }
  }

  /** How many of the first `n` ticks are undisturbed and start quietly. */
  ghost function Calm(first: seq<Event>, now: Time, ticks: seq<Tick>, n: nat): nat
    requires n <= |ticks|
  {
    if n == 0 then 0
    else Calm(first, now, ticks, n - 1) + if !Disturbed(ticks, n - 1) && Quiet(first, now, ticks, n - 1) then 1 else 0
  }

  /** Trouble only delays, whatever the pauses: c calm ticks publish c batches, as far as there are rows, however many
    * other ticks lie between. */
  lemma {:induction false} TroubleOnlyDelays(states: seq<seq<Event>>, name: string, batch: nat, now: Time, ticks: seq<Tick>, n: nat)
    requires n <= |ticks| && IsRun(states, name, batch, now, ticks, |ticks|)
    ensures Pending(states[n]) <= Left(Pending(states[0]), Capacity(batch, Calm(states[0], now, ticks, n)))
  {
    if n > 0 {
      TroubleOnlyDelays(states, name, batch, now, ticks, n - 1);
      TickInRun(states, name, batch, now, ticks, n - 1);
      Progress(batch, Calm(states[0], now, ticks, n - 1), Calm(states[0], now, ticks, n), Pending(states[0]),
               Pending(states[n - 1]), Pending(states[n]));
    }
  }

  lemma Progress(batch: nat, calmBefore: nat, calm: nat, first: nat, before: nat, after: nat)
    requires calm == calmBefore || calm == calmBefore + 1
    requires before <= Left(first, Capacity(batch, calmBefore))
    requires after <= if calm == calmBefore then before else Left(before, batch)
    ensures after <= Left(first, Capacity(batch, calm))
  {
  }

  lemma {:induction false} TickInRun(states: seq<seq<Event>>, name: string, batch: nat, now: Time, ticks: seq<Tick>, k: nat)
    requires k < |ticks| && IsRun(states, name, batch, now, ticks, |ticks|)
    ensures Pending(states[k + 1]) <= Pending(states[k])
    ensures !Disturbed(ticks, k) && Quiet(states[0], now, ticks, k) ==> Pending(states[k + 1]) == Left(Pending(states[k]), batch)
  {
    assert IsTick(states, name, batch, now, ticks, k);
    var start := StartOf(now, ticks, k);
    OnlyLess(states[k], states[k + 1], name, batch, ticks[k].upset, start);
    if !Disturbed(ticks, k) && Quiet(states[0], now, ticks, k) {
      LeasesExpire(states, name, batch, now, ticks, k);
      assert ticks[k].upset == None;
      TickPublishes(states[k], states[k + 1], name, batch, start);
    }
  }

  // ----- draining -----

  /** Once quiet, undisturbed ticks stay quiet. */
  lemma QuietStays(first: seq<Event>, now: Time, ticks: seq<Tick>, n: nat, m: nat)
    requires n <= m <= |ticks| && Quiet(first, now, ticks, n) && forall j :: n <= j < m ==> !Disturbed(ticks, j)
    ensures Quiet(first, now, ticks, m)
  {
    Later(now, ticks, n, m);
    LaterUnleased(first, StartOf(now, ticks, n), StartOf(now, ticks, m));
  }

  lemma {:induction false} DrainByTicks(states: seq<seq<Event>>, name: string, batch: nat, now: Time, ticks: seq<Tick>, n: nat, m: nat)
    requires n <= m <= |ticks| && IsRun(states, name, batch, now, ticks, |ticks|) && Quiet(states[0], now, ticks, n)
    requires forall j :: n <= j < m ==> !Disturbed(ticks, j)
    ensures Pending(states[m]) == Left(Pending(states[n]), Capacity(batch, m - n))
    decreases m
  {
    if n < m {
      DrainByTicks(states, name, batch, now, ticks, n, m - 1);
      QuietStays(states[0], now, ticks, n, m - 1);
      TickInRun(states, name, batch, now, ticks, m - 1);
    }
  }

  /** From a quiet moment on, undisturbed ticks publish exactly a batch each, as far as there are rows: n rows are
    * drained exactly when the ticks are at least ceil(n / batch), and until then published and pending add up. */
  lemma {:induction false} Drain(states: seq<seq<Event>>, name: string, batch: nat, now: Time, ticks: seq<Tick>, n: nat, m: nat)
    requires n <= m <= |ticks| && IsRun(states, name, batch, now, ticks, |ticks|) && Quiet(states[0], now, ticks, n)
    requires batch > 0 && forall j :: n <= j < m ==> !Disturbed(ticks, j)
    ensures var pending := Pending(states[n]);
      var left := Pending(states[m]);
      && (left == 0 <==> (pending + batch - 1) / batch <= m - n)
      && (left > 0 ==> left == pending - batch * (m - n))
  {
    DrainByTicks(states, name, batch, now, ticks, n, m);
    CapacityIs(batch, m - n);
    CeilingIff(Pending(states[n]), batch, m - n);
  }

  lemma CeilingIff(n: nat, batch: nat, ticks: nat)
    requires batch > 0
    ensures (n + batch - 1) / batch <= ticks <==> n <= batch * ticks
  {
    var q := (n + batch - 1) / batch;
    assert n + batch - 1 == batch * q + (n + batch - 1) % batch;
    if q <= ticks {
      Monotone(batch, q, ticks);
    } else {
      Monotone(batch, ticks + 1, q);
    }
  }

  lemma Monotone(batch: nat, a: nat, b: nat)
    requires a <= b
    ensures batch * a <= batch * b
  {
    assert batch * b == batch * a + batch * (b - a);
  }
}
