/** What requests are answered, and what their answers promise. */
module Requests {
  import opened Prelude
  import opened Statuses
  import opened Documents
  import opened Envelopes
  import opened Tables
  import opened Stores
  import opened Pipeline
  import opened Lifecycle
  import opened Safety
  import opened Runs

  /** A row that answers a repeated key was inserted by the request named, for that key. */
  ghost predicate Repeats(s: State, h: Handler, d: DocId) {
    Submitted(s.handlers, d) && s.handlers[d].submission.key == h.submission.key
  }

  ghost predicate AnswerOk(env: Env, s: State, id: DocId, h: Handler, a: Answer) {
    match a
    case Accepted => h.rpc.SubmitRpc? && h.inserted && id in s.jobs
    case AlreadyExists(existing) =>
      h.rpc.SubmitRpc? && !h.inserted && (existing.Some? ==> Repeats(s, h, existing.value))
    case Replayed(d, row) =>
      h.rpc.ProcessRpc? && !h.inserted && Repeats(s, h, d) && row.submission == s.handlers[d].submission
    case QueueUnavailable =>
      && h.rpc.SubmitRpc? && h.inserted
      && (env.exactEnqueue ==> id !in s.jobs) && (env.deletesSucceed ==> id !in s.t.documents)
    case Vanished => h.rpc.ProcessRpc? && !h.inserted
    case ProcessingFailed => h.rpc.ProcessRpc? && h.inserted
    case Responded(row) =>
      h.rpc.ProcessRpc? && h.inserted && row.status.Terminal() && row.submission == h.submission
    case Cancelled => h.rpc.ProcessRpc? && h.inserted
  }

  ghost predicate Served(env: Env, s: State, id: DocId)
    requires id in s.handlers
  {
    var h := s.handlers[id];
    && (h.inserted && h.pc != Answered(QueueUnavailable) ==> id in s.t.documents)
    && match h.pc
       case Inserted => id !in s.jobs
       case EnqueueFailed => env.exactEnqueue ==> id !in s.jobs
       case Conflict => !h.inserted
       case Answering => id in s.t.documents && s.t.documents[id].status.Terminal()
       case Answered(a) => AnswerOk(env, s, id, h, a)
       case _ => true
  }

  ghost predicate AllServed(env: Env, s: State) {
    forall id :: id in s.handlers ==> Served(env, s, id)
  }

  // ----- every step -----

  /** Of the other requests, neither rows nor jobs change. */
  ghost predicate OthersStay(s: State, u: State, id: DocId) {
    && (forall x :: x in s.handlers && x != id ==> x in u.handlers && u.handlers[x] == s.handlers[x])
    && u.handlers.Keys <= s.handlers.Keys + {id}
    && (forall x :: x != id ==> (x in u.t.documents <==> x in s.t.documents))
    && (forall x :: x != id ==> (x in u.jobs <==> x in s.jobs))
  }

  lemma HandlersKeepToThemselves(cfg: Config, env: Env, s: State, step: Step)
    requires Enabled(env, s, step) && OfHandler(step) && !step.RunInline?
    ensures OthersStay(s, Apply(cfg, env, s, step), step.id)
  {
  }

  lemma OneServed(env: Env, s: State, u: State, id: DocId)
    requires Inv(s) && AllServed(env, s) && Kept(s, u) && OthersStay(s, u, id)
    requires id in u.handlers ==> Served(env, u, id)
    ensures AllServed(env, u)
  {
    forall x | x in u.handlers && x != id ensures Served(env, u, x) {
      assert Served(env, s, x);
    }
  }

  lemma RowsHaveHandlers(s: State, d: DocId)
    requires Inv(s) && d in s.t.documents
    ensures Submitted(s.handlers, d) && s.t.documents[d].submission == s.handlers[d].submission
  {
  }

  lemma LookupServed(cfg: Config, env: Env, s: State, id: DocId)
    requires Inv(s) && AllServed(env, s) && Enabled(env, s, Lookup(id))
    ensures AllServed(env, Apply(cfg, env, s, Lookup(id)))
  {
    var u := Apply(cfg, env, s, Lookup(id));
    StepKeeps(cfg, env, s, Lookup(id));
    HandlersKeepToThemselves(cfg, env, s, Lookup(id));
    assert Served(env, s, id);
    RepeatAnswerOk(env, s, id);
    OneServed(env, s, u, id);
  }

  lemma RepeatAnswerOk(env: Env, s: State, id: DocId)
    requires Inv(s) && id in s.handlers && !s.handlers[id].inserted
    ensures AnswerOk(env, s, id, s.handlers[id], RepeatAnswer(s.t, s.handlers[id]))
  {
    var holder := Holder(s.t.documents, s.handlers[id].submission.key);
    if holder.Some? {
      RowsHaveHandlers(s, holder.value);
    }
  }

  lemma ArriveServed(cfg: Config, env: Env, s: State, id: DocId, rpc: Rpc, sub: Submission)
    requires Inv(s) && AllServed(env, s) && Enabled(env, s, Arrive(id, rpc, sub))
    ensures AllServed(env, Apply(cfg, env, s, Arrive(id, rpc, sub)))
  {
    var u := Apply(cfg, env, s, Arrive(id, rpc, sub));
    StepKeeps(cfg, env, s, Arrive(id, rpc, sub));
    HandlersKeepToThemselves(cfg, env, s, Arrive(id, rpc, sub));
    OneServed(env, s, u, id);
  }

  lemma InsertsOrConflicts(cfg: Config, env: Env, s: State, id: DocId)
    requires Enabled(env, s, Insert(id))
    ensures var u := Apply(cfg, env, s, Insert(id));
      && id in u.handlers && u.jobs == s.jobs
      && var k := u.handlers[id];
      || (k.pc.Conflict? && k.inserted == s.handlers[id].inserted)
      || (id in u.t.documents && (k.pc.Inserted? || k.pc.Inline?))
  {
  }

  lemma InsertServed(cfg: Config, env: Env, s: State, id: DocId)
    requires Inv(s) && AllServed(env, s) && Enabled(env, s, Insert(id))
    ensures AllServed(env, Apply(cfg, env, s, Insert(id)))
  {
    assert !s.handlers[id].inserted && id !in s.jobs by { assert HandlerOk(s.handlers[id]); }
    StepKeeps(cfg, env, s, Insert(id));
    HandlersKeepToThemselves(cfg, env, s, Insert(id));
    InsertsOrConflicts(cfg, env, s, id);
    InsertMovesServed(env, s, Apply(cfg, env, s, Insert(id)), id);
  }

  lemma InsertMovesServed(env: Env, s: State, u: State, id: DocId)
    requires Inv(s) && AllServed(env, s) && Kept(s, u) && OthersStay(s, u, id)
    requires id in s.handlers && !s.handlers[id].inserted && id !in s.jobs && u.jobs == s.jobs && id in u.handlers
    requires var k := u.handlers[id];
      || (k.pc.Conflict? && k.inserted == s.handlers[id].inserted)
      || (id in u.t.documents && (k.pc.Inserted? || k.pc.Inline?))
    ensures AllServed(env, u)
  {
    OneServed(env, s, u, id);
  }

  lemma EnqueueServed(cfg: Config, env: Env, s: State, id: DocId, raises: bool, landed: bool)
    requires Inv(s) && AllServed(env, s) && Enabled(env, s, Enqueue(id, raises, landed))
    ensures AllServed(env, Apply(cfg, env, s, Enqueue(id, raises, landed)))
  {
    var u := Apply(cfg, env, s, Enqueue(id, raises, landed));
    StepKeeps(cfg, env, s, Enqueue(id, raises, landed));
    HandlersKeepToThemselves(cfg, env, s, Enqueue(id, raises, landed));
    assert Served(env, s, id) && HandlerOk(s.handlers[id]);
    OneServed(env, s, u, id);
  }

  lemma RollbackServed(cfg: Config, env: Env, s: State, id: DocId, deleted: bool)
    requires Inv(s) && AllServed(env, s) && Enabled(env, s, Rollback(id, deleted))
    ensures AllServed(env, Apply(cfg, env, s, Rollback(id, deleted)))
  {
    var u := Apply(cfg, env, s, Rollback(id, deleted));
    StepKeeps(cfg, env, s, Rollback(id, deleted));
    HandlersKeepToThemselves(cfg, env, s, Rollback(id, deleted));
    assert Served(env, s, id) && HandlerOk(s.handlers[id]);
    OneServed(env, s, u, id);
  }

  lemma RespondServed(cfg: Config, env: Env, s: State, id: DocId)
    requires Inv(s) && AllServed(env, s) && Enabled(env, s, Respond(id))
    ensures AllServed(env, Apply(cfg, env, s, Respond(id)))
  {
    var u := Apply(cfg, env, s, Respond(id));
    StepKeeps(cfg, env, s, Respond(id));
    HandlersKeepToThemselves(cfg, env, s, Respond(id));
    assert Served(env, s, id) && HandlerOk(s.handlers[id]);
    RowsHaveHandlers(s, id);
    OneServed(env, s, u, id);
  }

  lemma ReadCancelledServed(cfg: Config, env: Env, s: State, id: DocId)
    requires Inv(s) && AllServed(env, s) && Enabled(env, s, ReadCancelled(id))
    ensures AllServed(env, Apply(cfg, env, s, ReadCancelled(id)))
  {
    var u := Apply(cfg, env, s, ReadCancelled(id));
    StepKeeps(cfg, env, s, ReadCancelled(id));
    HandlersKeepToThemselves(cfg, env, s, ReadCancelled(id));
    assert Served(env, s, id) && HandlerOk(s.handlers[id]);
    OneServed(env, s, u, id);
  }

  lemma RunStepRows(cfg: Config, t: Tables, id: DocId, pc: Pc, c: Choice, now: Time)
    requires Fits(pc, c) && (pc.Finishing? ==> pc.outcome.WellFormed()) && id in t.documents
    ensures var (u, next) := RunStep(cfg, t, id, pc, c, now);
      && u.documents.Keys == t.documents.Keys
      && (next == Ended(Skipped) || next == Ended(Finished) ==> u.documents[id].status.Terminal())
  {
    if c.DoStages? {
      OutcomesAreWellFormed(cfg, pc.doc, c.stages);
    }
  }

  lemma {:induction false} RunMovesServed(env: Env, s: State, u: State, id: DocId, next: Pc)
    requires Inv(s) && AllServed(env, s) && Kept(s, u) && id in s.handlers && id in s.t.documents
    requires s.handlers[id].inserted && s.handlers[id].rpc.ProcessRpc?
    requires u.handlers == s.handlers[id := s.handlers[id].(pc := AfterRun(next))] && u.jobs == s.jobs
    requires u.t.documents.Keys == s.t.documents.Keys
    requires next == Ended(Skipped) || next == Ended(Finished) ==> u.t.documents[id].status.Terminal()
    ensures AllServed(env, u)
  {
    RunServed(env, u, id, next);
    OneServed(env, s, u, id);
  }

  lemma RunServed(env: Env, u: State, id: DocId, next: Pc)
    requires id in u.handlers && id in u.t.documents && u.handlers[id].pc == AfterRun(next)
    requires u.handlers[id].inserted && u.handlers[id].rpc.ProcessRpc?
    requires next == Ended(Skipped) || next == Ended(Finished) ==> u.t.documents[id].status.Terminal()
    ensures Served(env, u, id)
  {
  }

  lemma RunInlineServed(cfg: Config, env: Env, s: State, id: DocId, c: Choice)
    requires Inv(s) && AllServed(env, s) && Enabled(env, s, RunInline(id, c))
    ensures AllServed(env, Apply(cfg, env, s, RunInline(id, c)))
  {
    var pc := s.handlers[id].pc.pc;
    var u := Apply(cfg, env, s, RunInline(id, c));
    var h := s.handlers[id];
    assert PcOk(pc, h.submission) && h.inserted && h.rpc.ProcessRpc? && id in s.t.documents by {
      assert Served(env, s, id) && HandlerOk(h);
    }
    RunStepRows(cfg, s.t, id, pc, c, s.now);
    StepKeeps(cfg, env, s, RunInline(id, c));
    RunMovesServed(env, s, u, id, RunStep(cfg, s.t, id, pc, c, s.now).1);
  }

  lemma LeaveServed(cfg: Config, env: Env, s: State, id: DocId, committed: bool, pc: HandlerPc)
    requires Inv(s) && AllServed(env, s) && id in s.handlers && (committed ==> MayCommit(s.handlers[id].pc))
    requires HandlerOk(s.handlers[id].(pc := pc)) && s.handlers[id].pc != Answered(QueueUnavailable)
    requires pc.Cancelling? || pc.Crashed? || (pc == Answered(Cancelled) && s.handlers[id].inserted && s.handlers[id].rpc.ProcessRpc?)
    ensures AllServed(env, At(if committed then Concluding(s, id, CommitOf(cfg, s.t, id, s.handlers[id].pc, s.now)) else s, id, pc))
  {
    var u := At(if committed then Concluding(s, id, CommitOf(cfg, s.t, id, s.handlers[id].pc, s.now)) else s, id, pc);
    LeavingKeeps(cfg, s, id, committed, pc);
    CommitKeepsRows(cfg, s.t, id, s.handlers[id].pc, s.now);
    LeaveMovesServed(env, s, u, id, pc);
  }

  lemma LeaveMovesServed(env: Env, s: State, u: State, id: DocId, pc: HandlerPc)
    requires Inv(s) && AllServed(env, s) && Kept(s, u) && id in s.handlers && s.handlers[id].pc != Answered(QueueUnavailable)
    requires pc.Cancelling? || pc.Crashed? || (pc == Answered(Cancelled) && s.handlers[id].inserted && s.handlers[id].rpc.ProcessRpc?)
    requires u.handlers == s.handlers[id := s.handlers[id].(pc := pc)] && u.jobs == s.jobs
    requires u.t.documents.Keys == s.t.documents.Keys
    ensures AllServed(env, u)
  {
    assert Served(env, s, id);
    OneServed(env, s, u, id);
  }

  lemma CommitKeepsRows(cfg: Config, t: Tables, id: DocId, pc: HandlerPc, now: Time)
    ensures CommitOf(cfg, t, id, pc, now).documents.Keys == t.documents.Keys
  {
  }

  lemma LeaveStepServed(cfg: Config, env: Env, s: State, step: Step)
    requires Inv(s) && AllServed(env, s) && Enabled(env, s, step)
    requires step.Cancel? || step.FinishCancelled? || step.Crash?
    ensures AllServed(env, Apply(cfg, env, s, step))
  {
    assert HandlerOk(s.handlers[step.id]);
    match step
    case Cancel(id, committed) => LeaveServed(cfg, env, s, id, committed, Cancelling);
    case FinishCancelled(id, fault) => LeaveServed(cfg, env, s, id, !fault.RollsBack?, Answered(Cancelled));
    case Crash(id, committed) => LeaveServed(cfg, env, s, id, committed, Crashed);
  }

  /** Workers, sweeps and polls touch no request and insert or delete no row. */
  lemma OthersKeepRows(cfg: Config, env: Env, s: State, step: Step)
    requires Enabled(env, s, step) && !OfHandler(step) && !step.Cancel? && !step.FinishCancelled? && !step.Crash?
    ensures var u := Apply(cfg, env, s, step);
      u.handlers == s.handlers && u.t.documents.Keys == s.t.documents.Keys && u.jobs == s.jobs
  {
  }

  lemma QuietServed(env: Env, s: State, u: State)
    requires Inv(s) && AllServed(env, s) && Kept(s, u)
    requires u.handlers == s.handlers && u.t.documents.Keys == s.t.documents.Keys && u.jobs == s.jobs
    ensures AllServed(env, u)
  {
    forall id | id in u.handlers ensures Served(env, u, id) {
      assert Served(env, s, id);
    }
  }

  lemma OtherStepServed(cfg: Config, env: Env, s: State, step: Step)
    requires Inv(s) && AllServed(env, s) && Enabled(env, s, step)
    requires !OfHandler(step) && !step.Cancel? && !step.FinishCancelled? && !step.Crash?
    ensures AllServed(env, Apply(cfg, env, s, step))
  {
    OthersKeepRows(cfg, env, s, step);
    StepKeeps(cfg, env, s, step);
    QuietServed(env, s, Apply(cfg, env, s, step));
  }

  lemma HandlerStepServed(cfg: Config, env: Env, s: State, step: Step)
    requires Inv(s) && AllServed(env, s) && Enabled(env, s, step) && OfHandler(step)
    ensures AllServed(env, Apply(cfg, env, s, step))
  {
    match step
    case Arrive(id, rpc, sub) => ArriveServed(cfg, env, s, id, rpc, sub);
    case Insert(id) => InsertServed(cfg, env, s, id);
    case Lookup(id) => LookupServed(cfg, env, s, id);
    case Enqueue(id, raises, landed) => EnqueueServed(cfg, env, s, id, raises, landed);
    case Rollback(id, deleted) => RollbackServed(cfg, env, s, id, deleted);
    case RunInline(id, c) => RunInlineServed(cfg, env, s, id, c);
    case Respond(id) => RespondServed(cfg, env, s, id);
    case ReadCancelled(id) => ReadCancelledServed(cfg, env, s, id);
  }

  lemma StepKeepsServed(cfg: Config, env: Env, s: State, step: Step)
    requires Inv(s) && AllServed(env, s) && Enabled(env, s, step)
    ensures AllServed(env, Apply(cfg, env, s, step))
  {
    if OfHandler(step) { HandlerStepServed(cfg, env, s, step); }
    else if step.Cancel? || step.FinishCancelled? || step.Crash? { LeaveStepServed(cfg, env, s, step); }
    else { OtherStepServed(cfg, env, s, step); }
  }

  lemma {:induction false} RunKeepsServed(cfg: Config, env: Env, s: State, steps: seq<Step>)
    requires Inv(s) && AllServed(env, s) && Possible(cfg, env, s, steps)
    ensures Inv(After(cfg, env, s, steps)) && AllServed(env, After(cfg, env, s, steps))
    decreases |steps|
  {
    if steps != [] {
      StepKeeps(cfg, env, s, steps[0]);
      StepKeepsServed(cfg, env, s, steps[0]);
      RunKeepsServed(cfg, env, Apply(cfg, env, s, steps[0]), steps[1..]);
    }
  }

  // ----- what answers promise -----

  /** A completed SubmitDocument leaves a row exactly when its job was enqueued. */
  lemma {:induction false} RowIffEnqueued(cfg: Config, env: Env, steps: seq<Step>, id: DocId)
    requires env.exactEnqueue && env.deletesSucceed && Possible(cfg, env, INITIAL, steps)
    requires var s := After(cfg, env, INITIAL, steps);
      id in s.handlers && s.handlers[id].rpc.SubmitRpc? && s.handlers[id].pc.Answered?
    ensures var s := After(cfg, env, INITIAL, steps);
      && (id in s.t.documents <==> id in s.jobs)
      && (id in s.t.documents <==> s.handlers[id].pc == Answered(Accepted))
  {
    RunKeepsServed(cfg, env, INITIAL, steps);
    var s := After(cfg, env, INITIAL, steps);
    assert Served(env, s, id);
    if id in s.t.documents { RowsHaveHandlers(s, id); }
  }

  /** Whatever the environment does, an accepted document is there and its job is queued. */
  lemma {:induction false} AcceptedIsQueued(cfg: Config, env: Env, steps: seq<Step>, id: DocId)
    requires Possible(cfg, env, INITIAL, steps)
    requires var s := After(cfg, env, INITIAL, steps); id in s.handlers && s.handlers[id].pc == Answered(Accepted)
    ensures var s := After(cfg, env, INITIAL, steps);
      id in s.jobs && id in s.t.documents && s.t.documents[id].submission == s.handlers[id].submission
  {
    RunKeepsServed(cfg, env, INITIAL, steps);
    var s := After(cfg, env, INITIAL, steps);
    assert Served(env, s, id);
    RowsHaveHandlers(s, id);
  }

  /** A key is accepted, or processed in a request, at most once. */
  lemma {:induction false} OneAcceptedPerKey(cfg: Config, env: Env, steps: seq<Step>, d: DocId, e: DocId)
    requires Possible(cfg, env, INITIAL, steps)
    requires var s := After(cfg, env, INITIAL, steps);
      && d in s.handlers && e in s.handlers && s.handlers[d].submission.key == s.handlers[e].submission.key
      && s.handlers[d].inserted && s.handlers[d].pc != Answered(QueueUnavailable)
      && s.handlers[e].inserted && s.handlers[e].pc != Answered(QueueUnavailable)
    ensures d == e
  {
    RunKeepsServed(cfg, env, INITIAL, steps);
    var s := After(cfg, env, INITIAL, steps);
    assert Served(env, s, d) && Served(env, s, e);
    RowsHaveHandlers(s, d);
    RowsHaveHandlers(s, e);
  }

  /** A repeated key is answered with a document that was inserted for that key. */
  lemma {:induction false} RepeatsNameTheKeyHolder(cfg: Config, env: Env, steps: seq<Step>, id: DocId)
    requires Possible(cfg, env, INITIAL, steps)
    requires var s := After(cfg, env, INITIAL, steps); id in s.handlers && s.handlers[id].pc.Answered?
    ensures var s := After(cfg, env, INITIAL, steps);
      var h := s.handlers[id];
      match h.pc.answer
      case AlreadyExists(Some(d)) => !h.inserted && Repeats(s, h, d)
      case Replayed(d, row) => !h.inserted && Repeats(s, h, d) && row.submission == s.handlers[d].submission
      case _ => true
  {
    RunKeepsServed(cfg, env, INITIAL, steps);
    assert Served(env, After(cfg, env, INITIAL, steps), id);
  }

  /** At the moment of the answer the document named is there and holds the key; none is named exactly when no row does. */
  lemma {:induction false} AnswerNamesHolder(cfg: Config, env: Env, steps: seq<Step>, id: DocId)
    requires Possible(cfg, env, INITIAL, steps) && Enabled(env, After(cfg, env, INITIAL, steps), Lookup(id))
    ensures var s := After(cfg, env, INITIAL, steps);
      var key := s.handlers[id].submission.key;
      match Apply(cfg, env, s, Lookup(id)).handlers[id].pc.answer
      case AlreadyExists(Some(d)) => d in s.t.documents && s.t.documents[d].submission.key == key && d != id
      case AlreadyExists(None) => forall d :: d in s.t.documents ==> s.t.documents[d].submission.key != key
      case Replayed(d, row) => d in s.t.documents && row == s.t.documents[d] && row.submission.key == key && d != id
      case Vanished => forall d :: d in s.t.documents ==> s.t.documents[d].submission.key != key
      case _ => false
  {
    RunKeepsServed(cfg, env, INITIAL, steps);
    var s := After(cfg, env, INITIAL, steps);
    assert Served(env, s, id);
    NotOwnRow(s, id);
  }

  lemma NotOwnRow(s: State, id: DocId)
    requires Inv(s) && id in s.handlers && !s.handlers[id].inserted
    ensures id !in s.t.documents
  {
    if id in s.t.documents { RowsHaveHandlers(s, id); }
  }

  /** An insert is refused exactly when a row holds the key; looking it up then names the holder, if it still has one. */
  lemma {:induction false} RefusedIffHeld(cfg: Config, env: Env, steps: seq<Step>, id: DocId)
    requires Possible(cfg, env, INITIAL, steps) && Enabled(env, After(cfg, env, INITIAL, steps), Insert(id))
    ensures var s := After(cfg, env, INITIAL, steps);
      var key := s.handlers[id].submission.key;
      Apply(cfg, env, s, Insert(id)).handlers[id].pc.Conflict? <==>
        exists d :: d in s.t.documents && s.t.documents[d].submission.key == key
  {
    RunKeeps(cfg, env, INITIAL, steps);
    var s := After(cfg, env, INITIAL, steps);
    assert HandlerOk(s.handlers[id]);
    if id in s.t.documents { RowsHaveHandlers(s, id); }
  }

  /** A request that is answered with its own document finds it terminal; it never finds it missing. */
  lemma {:induction false} ResponsesAreTerminal(cfg: Config, env: Env, steps: seq<Step>, id: DocId)
    requires Possible(cfg, env, INITIAL, steps) && Enabled(env, After(cfg, env, INITIAL, steps), Respond(id))
    ensures var s := After(cfg, env, INITIAL, steps);
      var a := Apply(cfg, env, s, Respond(id)).handlers[id].pc.answer;
      a.Responded? && a.row.status.Terminal() && a.row.submission == s.handlers[id].submission
  {
    RunKeepsServed(cfg, env, INITIAL, steps);
    var s := After(cfg, env, INITIAL, steps);
    assert Served(env, s, id);
    RowsHaveHandlers(s, id);
  }
}
