/** What holds in every reachable state, whatever the interleaving, the crashes and the retries. */
module Safety {
  import opened Prelude
  import opened Statuses
  import opened Documents
  import opened Envelopes
  import opened Tables
  import opened Stores
  import opened Pipeline
  import opened Lifecycle

  // ----- documents and their events -----

  predicate Echoes(e: Envelope, id: DocId, s: Submission) {
    e.documentId == id && e.idempotencyKey == s.key && e.externalRef == s.externalRef && e.callerId == s.callerId
  }

  /** A purged row and the last event written for it: the result and message are gone, the rest agrees. */
  predicate AgreesPurged(r: Row, e: Envelope) {
    && r.result.None? && r.errorMessage.None?
    && match r.status
       case Failed => e.error.Present? && r.errorCode == Some(e.error.value.code)
       case Completed => r.errorCode.None? && e.data.Present?
       case NeedsReview => r.errorCode.None? && e.data.Present?
       case _ => false
  }

  /** A row against the events written for it: it is terminal exactly when there are some, and then agrees with the
    * last one; until then it has neither result nor error. */
  predicate RowOk(r: Row, events: seq<Envelope>, purged: bool) {
    && (r.status.Terminal() <==> events != [])
    && (r.status.Terminal() <==> r.processedAt.Some?)
    && (events != [] ==>
          var last := events[|events| - 1];
          if purged then AgreesPurged(r, last) else Agrees(r, last))
    && (events == [] ==> r.result.None? && r.errorCode.None? && r.errorMessage.None?)
  }

  ghost predicate Submitted(handlers: map<DocId, Handler>, id: DocId) {
    id in handlers && handlers[id].inserted
  }

  ghost predicate EventOk(e: Event, handlers: map<DocId, Handler>) {
    Submitted(handlers, e.docId) && ExactlyOne(e.payload) && Echoes(e.payload, e.docId, handlers[e.docId].submission)
  }

  ghost predicate TablesOk(t: Tables, handlers: map<DocId, Handler>, purged: set<DocId>) {
    && UniqueKeys(t.documents)
    && (forall d :: d in t.documents ==>
          && Submitted(handlers, d) && t.documents[d].submission == handlers[d].submission
          && RowOk(t.documents[d], EventsOf(t.outbox, d), d in purged))
    && (forall i :: 0 <= i < |t.outbox| ==> EventOk(t.outbox[i], handlers))
  }

  // ----- actors -----

  /** A run works on the submission it read, and only ever finishes with a well-formed outcome. */
  predicate PcOk(pc: Pc, s: Submission) {
    match pc
    case Begin => true
    case Read(doc) => doc.submission == s
    case Working(doc) => doc.submission == s
    case Finishing(doc, o, guarded, reraise) => doc.submission == s && o.WellFormed()
    case Ended(_) => true
  }

  predicate HandlerOk(h: Handler) {
    match h.pc
    case Arrived => !h.inserted
    case Conflict => !h.inserted
    case Inserted => h.inserted && h.rpc.SubmitRpc?
    case EnqueueFailed => h.inserted && h.rpc.SubmitRpc?
    case Inline(pc) => h.inserted && h.rpc.ProcessRpc? && PcOk(pc, h.submission) && !pc.Ended?
    case Answering => h.inserted && h.rpc.ProcessRpc?
    case Cancelling => h.inserted && h.rpc.ProcessRpc?
    case CancelRead(doc) => h.inserted && h.rpc.ProcessRpc? && doc.submission == h.submission
    case _ => true
  }

  /** A sweep only lists documents that were finished. */
  ghost predicate SweepOk(ids: seq<DocId>, documents: map<DocId, Row>, handlers: map<DocId, Handler>) {
    forall d :: d in ids ==> Submitted(handlers, d) && (d in documents ==> documents[d].status.Terminal())
  }

  ghost predicate ActorsOk(s: State) {
    && (forall id :: id in s.handlers ==> HandlerOk(s.handlers[id]))
    && (forall id :: id in s.jobs ==> Submitted(s.handlers, id) && s.handlers[id].rpc.SubmitRpc?)
    && (forall w :: w in s.workers ==>
          s.workers[w].docId in s.jobs && s.workers[w].docId in s.handlers
          && PcOk(s.workers[w].pc, s.handlers[s.workers[w].docId].submission))
    && (forall w :: w in s.sweeps ==> SweepOk(s.sweeps[w], s.t.documents, s.handlers))
  }

  ghost predicate Inv(s: State) {
    TablesOk(s.t, s.handlers, s.purged) && ActorsOk(s)
  }

  // ----- what each kind of change keeps -----

  /** Handlers may move on; what they submitted and whether they inserted it stays. */
  ghost predicate Grows(h: map<DocId, Handler>, k: map<DocId, Handler>) {
    forall id :: id in h ==> id in k && k[id].submission == h[id].submission && (h[id].inserted ==> k[id].inserted)
  }

  lemma HandlersMayGrow(t: Tables, h: map<DocId, Handler>, k: map<DocId, Handler>, purged: set<DocId>)
    requires TablesOk(t, h, purged) && Grows(h, k)
    ensures TablesOk(t, k, purged)
  {
    forall i | 0 <= i < |t.outbox| ensures EventOk(t.outbox[i], k) {
      assert EventOk(t.outbox[i], h);
    }
  }

  lemma {:induction false} NoEvents(outbox: seq<Event>, id: DocId)
    requires forall i :: 0 <= i < |outbox| ==> outbox[i].docId != id
    ensures EventsOf(outbox, id) == []
  {
    if outbox != [] {
      NoEvents(outbox[..|outbox| - 1], id);
    }
  }

  lemma InsertKeeps(t: Tables, h: map<DocId, Handler>, k: map<DocId, Handler>, purged: set<DocId>, id: DocId, now: Time)
    requires TablesOk(t, h, purged) && Grows(h, k) && id in h && !h[id].inserted && k[id].inserted
    requires Insertable(t.documents, id, h[id].submission.key)
    ensures TablesOk(t.(documents := t.documents[id := QueuedRow(h[id].submission, now)]), k, purged)
  {
    forall i | 0 <= i < |t.outbox| ensures EventOk(t.outbox[i], k) && t.outbox[i].docId != id {
      assert EventOk(t.outbox[i], h);
    }
    NoEvents(t.outbox, id);
  }

  lemma MarkProcessingKeeps(t: Tables, h: map<DocId, Handler>, purged: set<DocId>, id: DocId, now: Time)
    requires TablesOk(t, h, purged)
    ensures TablesOk(t.(documents := MarkedProcessing(t.documents, id, now)), h, purged)
  {
    if id in t.documents && t.documents[id].status == Queued {
      var u := MarkedProcessing(t.documents, id, now);
      assert RowOk(t.documents[id], EventsOf(t.outbox, id), id in purged);
      forall d | d in u ensures RowOk(u[d], EventsOf(t.outbox, d), d in purged) {
        if d != id { assert u[d] == t.documents[d]; }
      }
    }
  }

  lemma DeleteKeeps(t: Tables, h: map<DocId, Handler>, purged: set<DocId>, id: DocId)
    requires TablesOk(t, h, purged)
    ensures TablesOk(t.(documents := t.documents - {id}), h, purged)
  {
  }

  /** The one transaction that finishes a document, whoever runs it and whatever the row's status was. */
  lemma FinishKeeps(cfg: Config, t: Tables, h: map<DocId, Handler>, purged: set<DocId>, id: DocId, doc: Row, o: Outcome,
                    now: Time)
    requires TablesOk(t, h, purged) && Submitted(h, id) && doc.submission == h[id].submission && o.WellFormed()
    ensures TablesOk(FinishTables(cfg, t, id, doc, o, now), h, purged - {id})
  {
    var u := FinishTables(cfg, t, id, doc, o, now);
    FinishAgrees(cfg, t, id, doc, o, now);
    var e := u.outbox[|t.outbox|];
    assert u.outbox == t.outbox + [e];
    forall d | d in u.documents ensures RowOk(u.documents[d], EventsOf(u.outbox, d), d in purged - {id}) {
      EventsOfAppend(t.outbox, e, d);
    }
    forall i | 0 <= i < |u.outbox| ensures EventOk(u.outbox[i], h) {
      if i < |t.outbox| { assert u.outbox[i] == t.outbox[i]; }
    }
  }

  lemma PurgeKeeps(t: Tables, h: map<DocId, Handler>, purged: set<DocId>, ids: seq<DocId>, now: Time)
    requires TablesOk(t, h, purged)
    requires forall d :: d in ids && d in t.documents ==> t.documents[d].status.Terminal()
    ensures TablesOk(t.(documents := Purged(t.documents, ids, now)), h, purged + (set d | d in ids))
  {
  }

  lemma LeasesKeep(t: Tables, outbox: seq<Event>, h: map<DocId, Handler>, purged: set<DocId>)
    requires TablesOk(t, h, purged) && SameRows(t.outbox, outbox)
    ensures TablesOk(t.(outbox := outbox), h, purged)
  {
    forall d | d in t.documents ensures EventsOf(outbox, d) == EventsOf(t.outbox, d) {
      LeasesKeepEvents(t.outbox, outbox, d);
    }
    forall i | 0 <= i < |outbox| ensures EventOk(outbox[i], h) {
      assert EventOk(t.outbox[i], h);
    }
  }

  // ----- every step keeps the invariant -----

  /** Rows present before and after: no status falls back, and no submission changes. */
  ghost predicate Advances(a: map<DocId, Row>, b: map<DocId, Row>) {
    forall d :: d in a && d in b ==>
      a[d].status.Stage() <= b[d].status.Stage() && a[d].submission == b[d].submission
  }

  lemma RunStepKeeps(cfg: Config, t: Tables, h: map<DocId, Handler>, purged: set<DocId>, id: DocId, pc: Pc, c: Choice,
                     now: Time)
    requires TablesOk(t, h, purged) && Submitted(h, id) && PcOk(pc, h[id].submission) && Fits(pc, c)
    ensures var (u, next) := RunStep(cfg, t, id, pc, c, now);
      && TablesOk(u, h, if |u.outbox| > |t.outbox| then purged - {id} else purged)
      && PcOk(next, h[id].submission) && Advances(t.documents, u.documents)
      && |u.outbox| == |t.outbox| + (if Writes(c) then 1 else 0)
  {
    match c
    case DoRead =>
    case DoMark => MarkProcessingKeeps(t, h, purged, id, now);
    case DoStages(stages) => OutcomesAreWellFormed(cfg, pc.doc, stages);
    case DoFinish(fault, _) => FinishKeeps(cfg, t, h, purged, id, pc.doc, pc.outcome, now);
  }

  lemma CommitKeeps(cfg: Config, t: Tables, h: map<DocId, Handler>, purged: set<DocId>, id: DocId, pc: HandlerPc, now: Time)
    requires TablesOk(t, h, purged) && id in h && h[id].pc == pc && HandlerOk(h[id]) && MayCommit(pc)
    ensures var u := CommitOf(cfg, t, id, pc, now);
      TablesOk(u, h, purged - {id}) && |u.outbox| > |t.outbox| && Advances(t.documents, u.documents)
  {
    match pc
    case Inline(Finishing(doc, o, _, _)) => FinishKeeps(cfg, t, h, purged, id, doc, o, now);
    case CancelRead(doc) => FinishKeeps(cfg, t, h, purged, id, doc, CANCELLED, now);
  }

  /** What every step keeps: the invariant, the order of statuses, what was submitted; and a deleted row stays away. */
  ghost predicate Kept(s: State, u: State) {
    && Inv(u) && Advances(s.t.documents, u.t.documents) && Grows(s.handlers, u.handlers)
    && (forall d :: d in u.t.documents && d !in s.t.documents ==> !Submitted(s.handlers, d))
  }

  /** Tables that only advance, and handlers that only move on, keep sweeps in order. */
  lemma SweepsStay(s: State, u: State)
    requires ActorsOk(s) && u.sweeps == s.sweeps && Grows(s.handlers, u.handlers)
    requires Advances(s.t.documents, u.t.documents)
    requires forall d :: d in u.t.documents && d !in s.t.documents ==> !Submitted(s.handlers, d)
    ensures forall w :: w in u.sweeps ==> SweepOk(u.sweeps[w], u.t.documents, u.handlers)
  {
    forall w | w in u.sweeps ensures SweepOk(u.sweeps[w], u.t.documents, u.handlers) {
      assert SweepOk(s.sweeps[w], s.t.documents, s.handlers);
    }
  }

  /** A handler moving on, with tables that only advance, disturbs no other actor. */
  lemma HandlerMoves(s: State, u: State, id: DocId, k: Handler)
    requires ActorsOk(s) && TablesOk(u.t, s.handlers, u.purged)
    requires id in s.handlers && HandlerOk(k) && k.submission == s.handlers[id].submission && k.rpc == s.handlers[id].rpc
    requires k.inserted == s.handlers[id].inserted
    requires u.handlers == s.handlers[id := k] && u.workers == s.workers && u.sweeps == s.sweeps
    requires u.jobs == s.jobs || (u.jobs == s.jobs + {id} && k.inserted && k.rpc.SubmitRpc?)
    requires Advances(s.t.documents, u.t.documents) && u.t.documents.Keys <= s.t.documents.Keys
    ensures Kept(s, u)
  {
    HandlersMayGrow(u.t, s.handlers, u.handlers, u.purged);
    SweepsStay(s, u);
  }

  /** A worker moving on disturbs no other actor. */
  lemma WorkerMoves(s: State, u: State, w: nat, r: Worker)
    requires ActorsOk(s) && TablesOk(u.t, s.handlers, u.purged)
    requires u.handlers == s.handlers && u.workers == s.workers[w := r] && u.sweeps == s.sweeps && u.jobs == s.jobs
    requires r.docId in s.jobs && r.docId in s.handlers && PcOk(r.pc, s.handlers[r.docId].submission)
    requires Advances(s.t.documents, u.t.documents) && u.t.documents.Keys == s.t.documents.Keys
    ensures Kept(s, u)
  {
    SweepsStay(s, u);
  }

  lemma ArriveKeeps(cfg: Config, env: Env, s: State, id: DocId, rpc: Rpc, sub: Submission)
    requires Inv(s) && Enabled(env, s, Arrive(id, rpc, sub))
    ensures Kept(s, Apply(cfg, env, s, Arrive(id, rpc, sub)))
  {
    var u := Apply(cfg, env, s, Arrive(id, rpc, sub));
    HandlersMayGrow(s.t, s.handlers, u.handlers, s.purged);
    SweepsStay(s, u);
  }

  /** Jobs and workers depend on handlers only through what was submitted. */
  lemma JobsStay(s: State, u: State, id: DocId, k: Handler)
    requires ActorsOk(s) && id in s.handlers && HandlerOk(k)
    requires k.submission == s.handlers[id].submission && k.rpc == s.handlers[id].rpc && k.inserted
    requires u.handlers == s.handlers[id := k] && u.workers == s.workers && u.jobs == s.jobs
    requires forall w :: w in u.sweeps ==> SweepOk(u.sweeps[w], u.t.documents, u.handlers)
    ensures ActorsOk(u)
  {
  }

  /** A row inserted by its handler disturbs no other actor. */
  lemma HandlerInserts(s: State, u: State, id: DocId, k: Handler)
    requires ActorsOk(s) && TablesOk(u.t, u.handlers, u.purged)
    requires id in s.handlers && !s.handlers[id].inserted && HandlerOk(k) && k.inserted
    requires k.submission == s.handlers[id].submission && k.rpc == s.handlers[id].rpc
    requires u.handlers == s.handlers[id := k] && u.workers == s.workers && u.sweeps == s.sweeps && u.jobs == s.jobs
    requires Advances(s.t.documents, u.t.documents) && u.t.documents.Keys == s.t.documents.Keys + {id}
    ensures Kept(s, u)
  {
    SweepsStay(s, u);
    JobsStay(s, u, id, k);
  }

  function WithRow(s: State, id: DocId, k: Handler): State {
    s.(t := s.t.(documents := s.t.documents[id := QueuedRow(k.submission, s.now)]), handlers := s.handlers[id := k])
  }

  lemma WithRowKeeps(s: State, id: DocId, k: Handler)
    requires Inv(s) && id in s.handlers && s.handlers[id].pc.Arrived? && HandlerOk(k) && k.inserted
    requires Insertable(s.t.documents, id, s.handlers[id].submission.key)
    requires k.submission == s.handlers[id].submission && k.rpc == s.handlers[id].rpc
    ensures Kept(s, WithRow(s, id, k))
  {
    assert !s.handlers[id].inserted by { assert HandlerOk(s.handlers[id]); }
    var u := WithRow(s, id, k);
    InsertKeeps(s.t, s.handlers, u.handlers, s.purged, id, s.now);
    HandlerInserts(s, u, id, k);
  }

  lemma InsertStepKeeps(cfg: Config, env: Env, s: State, id: DocId)
    requires Inv(s) && Enabled(env, s, Insert(id)) && Insertable(s.t.documents, id, s.handlers[id].submission.key)
    ensures Kept(s, Apply(cfg, env, s, Insert(id)))
  {
    var h := s.handlers[id];
    WithRowKeeps(s, id, h.(inserted := true, pc := if h.rpc.SubmitRpc? then Inserted else Inline(Begin)));
  }

  lemma ConflictKeeps(cfg: Config, env: Env, s: State, id: DocId)
    requires Inv(s) && Enabled(env, s, Insert(id)) && !Insertable(s.t.documents, id, s.handlers[id].submission.key)
    ensures Kept(s, Apply(cfg, env, s, Insert(id)))
  {
    var u := Apply(cfg, env, s, Insert(id));
    assert HandlerOk(s.handlers[id]);
    HandlerMoves(s, u, id, u.handlers[id]);
  }

  lemma LookupKeeps(cfg: Config, env: Env, s: State, id: DocId)
    requires Inv(s) && Enabled(env, s, Lookup(id))
    ensures Kept(s, Apply(cfg, env, s, Lookup(id)))
  {
    var u := Apply(cfg, env, s, Lookup(id));
    HandlerMoves(s, u, id, u.handlers[id]);
  }

  lemma EnqueueKeeps(cfg: Config, env: Env, s: State, id: DocId, raises: bool, landed: bool)
    requires Inv(s) && Enabled(env, s, Enqueue(id, raises, landed))
    ensures Kept(s, Apply(cfg, env, s, Enqueue(id, raises, landed)))
  {
    var u := Apply(cfg, env, s, Enqueue(id, raises, landed));
    assert HandlerOk(s.handlers[id]);
    HandlerMoves(s, u, id, u.handlers[id]);
  }

  lemma RollbackKeeps(cfg: Config, env: Env, s: State, id: DocId, deleted: bool)
    requires Inv(s) && Enabled(env, s, Rollback(id, deleted))
    ensures Kept(s, Apply(cfg, env, s, Rollback(id, deleted)))
  {
    var u := Apply(cfg, env, s, Rollback(id, deleted));
    DeleteKeeps(s.t, s.handlers, s.purged, id);
    HandlerMoves(s, u, id, u.handlers[id]);
  }

  lemma RespondKeeps(cfg: Config, env: Env, s: State, id: DocId)
    requires Inv(s) && Enabled(env, s, Respond(id))
    ensures Kept(s, Apply(cfg, env, s, Respond(id)))
  {
    var u := Apply(cfg, env, s, Respond(id));
    HandlerMoves(s, u, id, u.handlers[id]);
  }

  lemma ReadCancelledKeeps(cfg: Config, env: Env, s: State, id: DocId)
    requires Inv(s) && Enabled(env, s, ReadCancelled(id))
    ensures Kept(s, Apply(cfg, env, s, ReadCancelled(id)))
  {
    var u := Apply(cfg, env, s, ReadCancelled(id));
    assert HandlerOk(s.handlers[id]);
    HandlerMoves(s, u, id, u.handlers[id]);
  }

  lemma RunInlineKeeps(cfg: Config, env: Env, s: State, id: DocId, c: Choice)
    requires Inv(s) && Enabled(env, s, RunInline(id, c))
    ensures Kept(s, Apply(cfg, env, s, RunInline(id, c)))
  {
    var u := Apply(cfg, env, s, RunInline(id, c));
    assert HandlerOk(s.handlers[id]);
    RunStepKeeps(cfg, s.t, s.handlers, s.purged, id, s.handlers[id].pc.pc, c, s.now);
    HandlerMoves(s, u, id, u.handlers[id]);
  }

  /** A handler that leaves its run, or the marking of a cancelled one, having committed or not. */
  lemma LeavingKeeps(cfg: Config, s: State, id: DocId, committed: bool, pc: HandlerPc)
    requires Inv(s) && id in s.handlers && (committed ==> MayCommit(s.handlers[id].pc))
    requires HandlerOk(s.handlers[id].(pc := pc))
    ensures Kept(s, At(if committed then Concluding(s, id, CommitOf(cfg, s.t, id, s.handlers[id].pc, s.now)) else s, id, pc))
  {
    var u := At(if committed then Concluding(s, id, CommitOf(cfg, s.t, id, s.handlers[id].pc, s.now)) else s, id, pc);
    if committed {
      CommitKeeps(cfg, s.t, s.handlers, s.purged, id, s.handlers[id].pc, s.now);
    }
    HandlerMoves(s, u, id, u.handlers[id]);
  }

  lemma LeaveStepKeeps(cfg: Config, env: Env, s: State, step: Step)
    requires Inv(s) && Enabled(env, s, step) && (step.Cancel? || step.FinishCancelled? || step.Crash?)
    ensures Kept(s, Apply(cfg, env, s, step))
  {
    match step
    case Cancel(id, committed) => LeavingKeeps(cfg, s, id, committed, Cancelling);
    case FinishCancelled(id, fault) => LeavingKeeps(cfg, s, id, !fault.RollsBack?, Answered(Cancelled));
    case Crash(id, committed) => LeavingKeeps(cfg, s, id, committed, Crashed);
  }

  lemma StartWorkerKeeps(cfg: Config, env: Env, s: State, w: nat, id: DocId)
    requires Inv(s) && Enabled(env, s, StartWorker(w, id))
    ensures Kept(s, Apply(cfg, env, s, StartWorker(w, id)))
  {
    var u := Apply(cfg, env, s, StartWorker(w, id));
    WorkerMoves(s, u, w, u.workers[w]);
  }

  lemma RunWorkerKeeps(cfg: Config, env: Env, s: State, w: nat, c: Choice)
    requires Inv(s) && Enabled(env, s, RunWorker(w, c))
    ensures Kept(s, Apply(cfg, env, s, RunWorker(w, c)))
  {
    var u := Apply(cfg, env, s, RunWorker(w, c));
    var r := s.workers[w];
    RunStepKeeps(cfg, s.t, s.handlers, s.purged, r.docId, r.pc, c, s.now);
    WorkerMoves(s, u, w, u.workers[w]);
  }

  lemma KillWorkerKeeps(cfg: Config, env: Env, s: State, w: nat, committed: bool)
    requires Inv(s) && Enabled(env, s, KillWorker(w, committed))
    ensures Kept(s, Apply(cfg, env, s, KillWorker(w, committed)))
  {
    var u := Apply(cfg, env, s, KillWorker(w, committed));
    var r := s.workers[w];
    if committed {
      RunStepKeeps(cfg, s.t, s.handlers, s.purged, r.docId, r.pc, DoFinish(Fine, ""), s.now);
    }
    WorkerMoves(s, u, w, u.workers[w]);
  }

  lemma ListExpiredKeeps(cfg: Config, env: Env, s: State, w: nat, cutoff: Time, ids: seq<DocId>)
    requires Inv(s) && Enabled(env, s, ListExpired(w, cutoff, ids))
    ensures Kept(s, Apply(cfg, env, s, ListExpired(w, cutoff, ids)))
  {
    assert SweepOk(ids, s.t.documents, s.handlers) by {
      forall d | d in ids ensures Submitted(s.handlers, d) && s.t.documents[d].status.Terminal() {
        assert d in s.t.documents && s.t.documents[d].processedAt.Some?;
        assert RowOk(s.t.documents[d], EventsOf(s.t.outbox, d), d in s.purged);
      }
    }
  }

  lemma PurgeStepKeeps(cfg: Config, env: Env, s: State, w: nat)
    requires Inv(s) && Enabled(env, s, Purge(w))
    ensures Kept(s, Apply(cfg, env, s, Purge(w)))
  {
    var ids := s.sweeps[w];
    assert SweepOk(ids, s.t.documents, s.handlers);
    PurgeKeeps(s.t, s.handlers, s.purged, ids, s.now);
    var u := Apply(cfg, env, s, Purge(w));
    assert Advances(s.t.documents, u.t.documents);
    forall x | x in u.sweeps ensures SweepOk(u.sweeps[x], u.t.documents, u.handlers) {
      assert SweepOk(s.sweeps[x], s.t.documents, s.handlers);
    }
  }

  /** Polling changes no more than leases. */
  lemma PollsKeepRows(cfg: Config, env: Env, s: State, step: Step)
    requires Enabled(env, s, step)
    requires step.StartPoll? || step.Produce? || step.Mark? || step.EndPoll? || step.Elapse?
    ensures var u := Apply(cfg, env, s, step);
      && u.t.documents == s.t.documents && SameRows(s.t.outbox, u.t.outbox) && u.handlers == s.handlers
      && u.workers == s.workers && u.sweeps == s.sweeps && u.jobs == s.jobs && u.purged == s.purged
  {
  }

  lemma PollStepKeeps(cfg: Config, env: Env, s: State, step: Step)
    requires Inv(s) && Enabled(env, s, step)
    requires step.StartPoll? || step.Produce? || step.Mark? || step.EndPoll? || step.Elapse?
    ensures Kept(s, Apply(cfg, env, s, step))
  {
    var u := Apply(cfg, env, s, step);
    PollsKeepRows(cfg, env, s, step);
    LeasesKeep(s.t, u.t.outbox, s.handlers, s.purged);
    assert u.t == s.t.(outbox := u.t.outbox);
  }

  predicate OfHandler(step: Step) {
    || step.Arrive? || step.Insert? || step.Lookup? || step.Enqueue? || step.Rollback? || step.RunInline?
    || step.Respond? || step.ReadCancelled?
  }

  lemma HandlerStepKeeps(cfg: Config, env: Env, s: State, step: Step)
    requires Inv(s) && Enabled(env, s, step) && OfHandler(step)
    ensures Kept(s, Apply(cfg, env, s, step))
  {
    match step
    case Arrive(id, rpc, sub) => ArriveKeeps(cfg, env, s, id, rpc, sub);
    case Insert(id) =>
      if Insertable(s.t.documents, id, s.handlers[id].submission.key) { InsertStepKeeps(cfg, env, s, id); }
      else { ConflictKeeps(cfg, env, s, id); }
    case Lookup(id) => LookupKeeps(cfg, env, s, id);
    case Enqueue(id, raises, landed) => EnqueueKeeps(cfg, env, s, id, raises, landed);
    case Rollback(id, deleted) => RollbackKeeps(cfg, env, s, id, deleted);
    case RunInline(id, c) => RunInlineKeeps(cfg, env, s, id, c);
    case Respond(id) => RespondKeeps(cfg, env, s, id);
    case ReadCancelled(id) => ReadCancelledKeeps(cfg, env, s, id);
  }

  predicate OfWorker(step: Step) {
    step.StartWorker? || step.RunWorker? || step.KillWorker? || step.ListExpired? || step.Purge?
  }

  lemma WorkerStepKeeps(cfg: Config, env: Env, s: State, step: Step)
    requires Inv(s) && Enabled(env, s, step) && OfWorker(step)
    ensures Kept(s, Apply(cfg, env, s, step))
  {
    match step
    case StartWorker(w, id) => StartWorkerKeeps(cfg, env, s, w, id);
    case RunWorker(w, c) => RunWorkerKeeps(cfg, env, s, w, c);
    case KillWorker(w, committed) => KillWorkerKeeps(cfg, env, s, w, committed);
    case ListExpired(w, cutoff, ids) => ListExpiredKeeps(cfg, env, s, w, cutoff, ids);
    case Purge(w) => PurgeStepKeeps(cfg, env, s, w);
  }

  /** Every step keeps the invariant, and moves no document back. */
  lemma StepKeeps(cfg: Config, env: Env, s: State, step: Step)
    requires Inv(s) && Enabled(env, s, step)
    ensures Kept(s, Apply(cfg, env, s, step))
  {
    if OfHandler(step) { HandlerStepKeeps(cfg, env, s, step); }
    else if OfWorker(step) { WorkerStepKeeps(cfg, env, s, step); }
    else if step.Cancel? || step.FinishCancelled? || step.Crash? { LeaveStepKeeps(cfg, env, s, step); }
    else { PollStepKeeps(cfg, env, s, step); }
  }
}
