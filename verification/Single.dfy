/** One event per document, as long as a document has one runner at a time and a finish raises only if it rolled back. */
module Single {
  import opened Prelude
  import opened Statuses
  import opened Documents
  import opened Envelopes
  import opened Tables
  import opened Stores
  import opened Pipeline
  import opened Lifecycle
  import opened Safety
  import opened Runs
  import opened Events
  import opened InRequest

  ghost predicate Serialized(env: Env) {
    env.oneRunner && env.exactCommits
  }

  /** A run that has read its document and not ended has written nothing, and nobody else has. Once past
    * `mark_processing`, its row is no longer queued. A run that ended wrote at most one event. */
  ghost predicate WorkerOne(r: Worker, t: Tables) {
    match r.pc
    case Begin => r.wrote == 0
    case Read(_) => r.wrote == 0 && EventsOf(t.outbox, r.docId) == []
    case Working(_) => r.wrote == 0 && EventsOf(t.outbox, r.docId) == [] && Marked(t, r.docId)
    case Finishing(_, _, _, _) => r.wrote == 0 && EventsOf(t.outbox, r.docId) == [] && Marked(t, r.docId)
    case Ended(Skipped) => r.wrote == 0
    case Ended(Finished) => r.wrote == 1
    case Ended(RaisedTransient) => r.wrote == 0
    case Ended(RaisedError) => r.wrote <= 1
  }

  ghost predicate One(s: State) {
    && (forall d: DocId :: |EventsOf(s.t.outbox, d)| <= 1)
    && (forall w :: w in s.workers ==> WorkerOne(s.workers[w], s.t))
    && (forall w, x ::
          (w in s.workers && x in s.workers && s.workers[w].docId == s.workers[x].docId
           && !s.workers[w].pc.Ended? && !s.workers[x].pc.Ended?) ==> w == x)
    && (forall id :: id in s.handlers && MayFinish(s.handlers[id].pc) ==> EventsOf(s.t.outbox, id) == [])
  }

  // ----- requests -----

  /** A handler moves on, having written at most the first event of its document. */
  lemma HandlerMovesOne(s: State, u: State, id: DocId, k: Handler)
    requires Inv(s) && One(s) && Kept(s, u)
    requires u.handlers == s.handlers[id := k] && u.workers == s.workers && OnlyFor(s.t.outbox, u.t.outbox, id)
    requires |EventsOf(u.t.outbox, id)| <= 1 && (MayFinish(k.pc) ==> EventsOf(u.t.outbox, id) == [])
    requires EventsOf(u.t.outbox, id) == EventsOf(s.t.outbox, id) || id !in s.jobs
    ensures One(u)
  {
    forall d: DocId ensures |EventsOf(u.t.outbox, d)| <= 1 {
      if d != id { assert EventsOf(u.t.outbox, d) == EventsOf(s.t.outbox, d); }
    }
    forall w | w in u.workers ensures WorkerOne(u.workers[w], u.t) {
      assert WorkerOne(s.workers[w], s.t);
      assert Submitted(s.handlers, s.workers[w].docId);
    }
  }

  lemma QuietHandlerOne(s: State, u: State, id: DocId)
    requires Inv(s) && One(s) && Kept(s, u)
    requires u.t.outbox == s.t.outbox && u.workers == s.workers
    requires id in u.handlers && u.handlers == s.handlers[id := u.handlers[id]]
    requires MayFinish(u.handlers[id].pc) ==>
      id in s.handlers && (s.handlers[id].pc.Arrived? || MayFinish(s.handlers[id].pc))
    ensures One(u)
  {
    if id in s.handlers && s.handlers[id].pc.Arrived? {
      assert HandlerOk(s.handlers[id]);
      Unannounced(s, id);
    }
    HandlerMovesOne(s, u, id, u.handlers[id]);
  }

  lemma HandlerStepOne(cfg: Config, env: Env, s: State, step: Step)
    requires Inv(s) && One(s) && Enabled(env, s, step) && OfHandler(step) && !step.RunInline?
    ensures One(Apply(cfg, env, s, step))
  {
    HandlersWriteNothing(cfg, env, s, step);
    StepKeeps(cfg, env, s, step);
    QuietHandlerOne(s, Apply(cfg, env, s, step), step.id);
  }

  lemma RunInlineOne(cfg: Config, env: Env, s: State, id: DocId, c: Choice)
    requires Inv(s) && One(s) && Serialized(env) && Enabled(env, s, RunInline(id, c))
    ensures One(Apply(cfg, env, s, RunInline(id, c)))
  {
    var pc := s.handlers[id].pc.pc;
    var (t, next) := RunStep(cfg, s.t, id, pc, c, s.now);
    RunStepIsOnlyFor(cfg, s.t, id, pc, c, s.now);
    var u := Apply(cfg, env, s, RunInline(id, c));
    assert u.t == t && u.handlers == s.handlers[id := s.handlers[id].(pc := AfterRun(next))] && u.workers == s.workers;
    StepKeeps(cfg, env, s, RunInline(id, c));
    RunInlineMovesOne(s, u, id, next, Writes(c));
  }

  lemma RunInlineMovesOne(s: State, u: State, id: DocId, next: Pc, writes: bool)
    requires Inv(s) && One(s) && Kept(s, u) && id in s.handlers && s.handlers[id].pc.Inline?
    requires u.handlers == s.handlers[id := s.handlers[id].(pc := AfterRun(next))] && u.workers == s.workers
    requires OnlyFor(s.t.outbox, u.t.outbox, id)
    requires |EventsOf(u.t.outbox, id)| == |EventsOf(s.t.outbox, id)| + (if writes then 1 else 0)
    requires writes ==> next.Ended?
    ensures One(u)
  {
    assert HandlerOk(s.handlers[id]);
    HandlerMovesOne(s, u, id, u.handlers[id]);
  }

  lemma LeaveOne(cfg: Config, s: State, id: DocId, committed: bool, pc: HandlerPc)
    requires Inv(s) && One(s) && id in s.handlers && (committed ==> MayCommit(s.handlers[id].pc))
    requires HandlerOk(s.handlers[id].(pc := pc))
    requires MayFinish(pc) ==> !committed && MayFinish(s.handlers[id].pc)
    ensures One(At(if committed then Concluding(s, id, CommitOf(cfg, s.t, id, s.handlers[id].pc, s.now)) else s, id, pc))
  {
    var u := At(if committed then Concluding(s, id, CommitOf(cfg, s.t, id, s.handlers[id].pc, s.now)) else s, id, pc);
    LeavingKeeps(cfg, s, id, committed, pc);
    if committed {
      CommitIsOnlyFor(cfg, s.t, id, s.handlers[id].pc, s.now);
      assert id !in s.jobs by { assert HandlerOk(s.handlers[id]); }
    }
    HandlerMovesOne(s, u, id, u.handlers[id]);
  }

  lemma LeaveStepOne(cfg: Config, env: Env, s: State, step: Step)
    requires Inv(s) && One(s) && Serialized(env) && Enabled(env, s, step)
    requires step.Cancel? || step.FinishCancelled? || step.Crash?
    ensures One(Apply(cfg, env, s, step))
  {
    match step
    case Cancel(id, committed) => LeaveOne(cfg, s, id, committed, Cancelling);
    case FinishCancelled(id, fault) => LeaveOne(cfg, s, id, !fault.RollsBack?, Answered(Cancelled));
    case Crash(id, committed) => LeaveOne(cfg, s, id, committed, Crashed);
  }

  // ----- workers -----

  lemma OthersStayOne(s: State, u: State, x: nat, id: DocId)
    requires Inv(s) && One(s) && Kept(s, u) && x in s.workers && OnlyFor(s.t.outbox, u.t.outbox, id)
    requires s.workers[x].docId == id ==> u.t == s.t || s.workers[x].pc.Ended?
    ensures WorkerOne(s.workers[x], u.t)
  {
    assert WorkerOne(s.workers[x], s.t);
    assert Submitted(s.handlers, s.workers[x].docId);
  }

  /** A worker's document is no synchronous request's. */
  lemma RequestsStayOne(s: State, u: State, id: DocId)
    requires Inv(s) && One(s) && id in s.jobs && u.handlers == s.handlers && OnlyFor(s.t.outbox, u.t.outbox, id)
    ensures forall h :: h in u.handlers && MayFinish(u.handlers[h].pc) ==> EventsOf(u.t.outbox, h) == []
  {
    forall h | h in u.handlers && MayFinish(u.handlers[h].pc) ensures EventsOf(u.t.outbox, h) == [] {
      assert HandlerOk(s.handlers[h]);
    }
  }

  /** A worker starts where none is active, or moves on, having written at most the first event of its document. */
  lemma {:induction false} WorkerMovesOne(s: State, u: State, w: nat, r: Worker)
    requires Inv(s) && One(s) && Kept(s, u)
    requires u.handlers == s.handlers && u.workers == s.workers[w := r] && r.docId in s.jobs
    requires OnlyFor(s.t.outbox, u.t.outbox, r.docId) && |EventsOf(u.t.outbox, r.docId)| <= 1 && WorkerOne(r, u.t)
    requires
      || (!ActiveWorker(s, r.docId) && u.t == s.t)
      || (w in s.workers && s.workers[w].docId == r.docId && !s.workers[w].pc.Ended?)
    ensures One(u)
  {
    forall d: DocId ensures |EventsOf(u.t.outbox, d)| <= 1 {
      if d != r.docId { assert EventsOf(u.t.outbox, d) == EventsOf(s.t.outbox, d); }
    }
    assert Submitted(s.handlers, r.docId) && s.handlers[r.docId].rpc.SubmitRpc?;
    forall x | x in u.workers && x != w ensures WorkerOne(u.workers[x], u.t) {
      OthersStayOne(s, u, x, r.docId);
    }
    RequestsStayOne(s, u, r.docId);
  }

  lemma RunStaysOne(cfg: Config, t: Tables, h: map<DocId, Handler>, purged: set<DocId>, r: Worker, c: Choice, now: Time)
    requires TablesOk(t, h, purged) && WorkerOne(r, t) && Fits(r.pc, c) && |EventsOf(t.outbox, r.docId)| <= 1
    requires c.DoFinish? ==> !c.fault.CommitsThenRaises?
    ensures var (u, next) := RunStep(cfg, t, r.docId, r.pc, c, now);
      && WorkerOne(Worker(r.docId, next, if Writes(c) then r.wrote + 1 else r.wrote), u)
      && |EventsOf(u.outbox, r.docId)| <= 1
  {
    RunStepIsOnlyFor(cfg, t, r.docId, r.pc, c, now);
    match c
    case DoRead =>
      if r.docId in t.documents {
        assert RowOk(t.documents[r.docId], EventsOf(t.outbox, r.docId), r.docId in purged);
      }
    case DoMark =>
    case DoStages(stages) => OutcomesAreWellFormed(cfg, r.pc.doc, stages);
    case DoFinish(fault, _) =>
  }

  lemma RunWorkerOne(cfg: Config, env: Env, s: State, w: nat, c: Choice)
    requires Inv(s) && One(s) && Serialized(env) && Enabled(env, s, RunWorker(w, c))
    ensures One(Apply(cfg, env, s, RunWorker(w, c)))
  {
    var u := Apply(cfg, env, s, RunWorker(w, c));
    StepKeeps(cfg, env, s, RunWorker(w, c));
    var r := s.workers[w];
    assert WorkerOne(r, s.t);
    RunStepIsOnlyFor(cfg, s.t, r.docId, r.pc, c, s.now);
    assert |EventsOf(s.t.outbox, r.docId)| <= 1;
    RunStaysOne(cfg, s.t, s.handlers, s.purged, r, c, s.now);
    WorkerMovesOne(s, u, w, u.workers[w]);
  }

  lemma StartWorkerOne(cfg: Config, env: Env, s: State, w: nat, id: DocId)
    requires Inv(s) && One(s) && Serialized(env) && Enabled(env, s, StartWorker(w, id))
    ensures One(Apply(cfg, env, s, StartWorker(w, id)))
  {
    StepKeeps(cfg, env, s, StartWorker(w, id));
    WorkerMovesOne(s, Apply(cfg, env, s, StartWorker(w, id)), w, Worker(id, Begin, 0));
  }

  lemma KillWorkerOne(cfg: Config, env: Env, s: State, w: nat, committed: bool)
    requires Inv(s) && One(s) && Enabled(env, s, KillWorker(w, committed))
    ensures One(Apply(cfg, env, s, KillWorker(w, committed)))
  {
    var u := Apply(cfg, env, s, KillWorker(w, committed));
    StepKeeps(cfg, env, s, KillWorker(w, committed));
    var r := s.workers[w];
    assert WorkerOne(r, s.t);
    if committed {
      FinishIsOnlyFor(cfg, s.t, r.docId, r.pc.doc, r.pc.outcome, s.now);
    }
    WorkerMovesOne(s, u, w, u.workers[w]);
  }

  // ----- sweeps and polls -----

  lemma QuietOne(s: State, u: State)
    requires Inv(s) && One(s) && Kept(s, u)
    requires SameRows(s.t.outbox, u.t.outbox) && u.handlers == s.handlers && u.workers == s.workers
    ensures One(u)
  {
    forall d: DocId ensures EventsOf(u.t.outbox, d) == EventsOf(s.t.outbox, d) {
      LeasesKeepEvents(s.t.outbox, u.t.outbox, d);
    }
    forall w | w in u.workers ensures WorkerOne(u.workers[w], u.t) {
      assert WorkerOne(s.workers[w], s.t);
      assert Submitted(s.handlers, s.workers[w].docId);
    }
  }

  lemma OtherStepOne(cfg: Config, env: Env, s: State, step: Step)
    requires Inv(s) && One(s) && Enabled(env, s, step)
    requires step.ListExpired? || step.Purge? || step.StartPoll? || step.Produce? || step.Mark? || step.EndPoll? || step.Elapse?
    ensures One(Apply(cfg, env, s, step))
  {
    if step.ListExpired? || step.Purge? {
      SweepsKeepEvents(cfg, env, s, step);
    } else {
      PollsKeepRows(cfg, env, s, step);
    }
    StepKeeps(cfg, env, s, step);
    QuietOne(s, Apply(cfg, env, s, step));
  }

  lemma StepKeepsOne(cfg: Config, env: Env, s: State, step: Step)
    requires Inv(s) && One(s) && Serialized(env) && Enabled(env, s, step)
    ensures One(Apply(cfg, env, s, step))
  {
    if step.RunInline? { RunInlineOne(cfg, env, s, step.id, step.choice); }
    else if OfHandler(step) { HandlerStepOne(cfg, env, s, step); }
    else if step.Cancel? || step.FinishCancelled? || step.Crash? { LeaveStepOne(cfg, env, s, step); }
    else if step.RunWorker? { RunWorkerOne(cfg, env, s, step.worker, step.choice); }
    else if step.StartWorker? { StartWorkerOne(cfg, env, s, step.worker, step.id); }
    else if step.KillWorker? { KillWorkerOne(cfg, env, s, step.worker, step.committed); }
    else { OtherStepOne(cfg, env, s, step); }
  }

  // ----- the result -----

  lemma {:induction false} RunKeepsOne(cfg: Config, env: Env, s: State, steps: seq<Step>)
    requires Inv(s) && One(s) && Serialized(env) && Possible(cfg, env, s, steps)
    ensures Inv(After(cfg, env, s, steps)) && One(After(cfg, env, s, steps))
    decreases |steps|
  {
    if steps != [] {
      StepKeeps(cfg, env, s, steps[0]);
      StepKeepsOne(cfg, env, s, steps[0]);
      RunKeepsOne(cfg, env, Apply(cfg, env, s, steps[0]), steps[1..]);
    }
  }

  /** Any number of retries, requests, cancellations and crashes yields at most one event per document. */
  lemma {:induction false} OneEventPerDocument(cfg: Config, env: Env, steps: seq<Step>, id: DocId)
    requires Serialized(env) && Possible(cfg, env, INITIAL, steps)
    ensures var s := After(cfg, env, INITIAL, steps);
      && |EventsOf(s.t.outbox, id)| <= 1
      && (id in s.t.documents ==> (|EventsOf(s.t.outbox, id)| == 1 <==> s.t.documents[id].status.Terminal()))
  {
    RunKeepsOne(cfg, env, INITIAL, steps);
    var s := After(cfg, env, INITIAL, steps);
    if id in s.t.documents {
      assert RowOk(s.t.documents[id], EventsOf(s.t.outbox, id), id in s.purged);
    }
  }

  predicate Settled(t: Tables, id: DocId) {
    id in t.documents ==> t.documents[id].status.Terminal()
  }

  predicate Unsettled(t: Tables, id: DocId) {
    id in t.documents ==> t.documents[id].status == Processing
  }

  /** One of three ways to leave a document: untouched, as the run found it missing or terminal; terminal with the run's
    * own event, its only one; or, if still there, processing with no event. */
  predicate LeftInOneOfThreeWays(t: Tables, u: Tables, r: Worker)
    requires r.pc.Ended?
  {
    var events := EventsOf(u.outbox, r.docId);
    var announced := r.wrote == 1 && |events| == 1 && Settled(u, r.docId);
    var pending := r.wrote == 0 && events == [] && Unsettled(u, r.docId);
    match r.pc.ending
    case Skipped => u == t && r.wrote == 0 && !Processable(t, r.docId)
    case Finished => announced
    case RaisedTransient => pending
    case RaisedError => announced || pending
  }

  /** The step that ends a worker's run leaves its document in one of three ways. */
  lemma {:induction false} RunsEndInOneOfThreeWays(cfg: Config, env: Env, steps: seq<Step>, w: nat, c: Choice)
    requires Serialized(env) && Possible(cfg, env, INITIAL, steps)
    requires Enabled(env, After(cfg, env, INITIAL, steps), RunWorker(w, c))
    requires Apply(cfg, env, After(cfg, env, INITIAL, steps), RunWorker(w, c)).workers[w].pc.Ended?
    ensures var s := After(cfg, env, INITIAL, steps);
      var u := Apply(cfg, env, s, RunWorker(w, c));
      LeftInOneOfThreeWays(s.t, u.t, u.workers[w])
  {
    RunKeepsOne(cfg, env, INITIAL, steps);
    RunEndsFrom(cfg, env, After(cfg, env, INITIAL, steps), w, c);
  }

  lemma RunEndsFrom(cfg: Config, env: Env, s: State, w: nat, c: Choice)
    requires Inv(s) && One(s) && Serialized(env) && Enabled(env, s, RunWorker(w, c))
    requires Apply(cfg, env, s, RunWorker(w, c)).workers[w].pc.Ended?
    ensures var u := Apply(cfg, env, s, RunWorker(w, c)); LeftInOneOfThreeWays(s.t, u.t, u.workers[w])
  {
    var r := s.workers[w];
    assert WorkerOne(r, s.t);
    assert PcOk(r.pc, s.handlers[r.docId].submission);
    RunEnds(cfg, s.t, s.handlers, s.purged, r, c, s.now);
  }

  /** So does the step that ends the run of a synchronous request. */
  lemma {:induction false} RequestsEndInOneOfThreeWays(cfg: Config, env: Env, steps: seq<Step>, id: DocId, c: Choice)
    requires Serialized(env) && Possible(cfg, env, INITIAL, steps)
    requires var s := After(cfg, env, INITIAL, steps);
      Enabled(env, s, RunInline(id, c)) && RunStep(cfg, s.t, id, s.handlers[id].pc.pc, c, s.now).1.Ended?
    ensures var s := After(cfg, env, INITIAL, steps);
      var next := RunStep(cfg, s.t, id, s.handlers[id].pc.pc, c, s.now).1;
      LeftInOneOfThreeWays(s.t, Apply(cfg, env, s, RunInline(id, c)).t, Worker(id, next, if Writes(c) then 1 else 0))
  {
    RunKeepsOne(cfg, env, INITIAL, steps);
    RunKeepsInline(cfg, env, INITIAL, steps);
    RequestEndsFrom(cfg, env, After(cfg, env, INITIAL, steps), id, c);
  }

  lemma RequestEndsFrom(cfg: Config, env: Env, s: State, id: DocId, c: Choice)
    requires Inv(s) && One(s) && AllInline(s) && Serialized(env) && Enabled(env, s, RunInline(id, c))
    requires RunStep(cfg, s.t, id, s.handlers[id].pc.pc, c, s.now).1.Ended?
    ensures var next := RunStep(cfg, s.t, id, s.handlers[id].pc.pc, c, s.now).1;
      LeftInOneOfThreeWays(s.t, Apply(cfg, env, s, RunInline(id, c)).t, Worker(id, next, if Writes(c) then 1 else 0))
  {
    var pc := s.handlers[id].pc.pc;
    assert HandlerOk(s.handlers[id]) && InlineOk(s.t, id, pc);
    RunEnds(cfg, s.t, s.handlers, s.purged, Worker(id, pc, 0), c, s.now);
  }

  lemma RunEnds(cfg: Config, t: Tables, h: map<DocId, Handler>, purged: set<DocId>, r: Worker, c: Choice, now: Time)
    requires TablesOk(t, h, purged) && WorkerOne(r, t) && Fits(r.pc, c)
    requires c.DoFinish? ==> !c.fault.CommitsThenRaises? && r.pc.outcome.WellFormed()
    requires RunStep(cfg, t, r.docId, r.pc, c, now).1.Ended?
    ensures var (u, next) := RunStep(cfg, t, r.docId, r.pc, c, now);
      LeftInOneOfThreeWays(t, u, Worker(r.docId, next, if Writes(c) then r.wrote + 1 else r.wrote))
  {
    RunStepIsOnlyFor(cfg, t, r.docId, r.pc, c, now);
    if r.docId in t.documents {
      assert RowOk(t.documents[r.docId], EventsOf(t.outbox, r.docId), r.docId in purged);
    }
  }
}
