/** Which documents can still come to an end, and which are stuck for good. */
module Recovery {
  import opened Prelude
  import opened Statuses
  import opened Documents
  import opened Tables
  import opened Stores
  import opened Pipeline
  import opened Lifecycle
  import opened Safety
  import opened Runs
  import opened Events
  import opened InRequest
  import opened Single
  import opened Requests

  /** A document that was enqueued, or whose request is still at it. */
  predicate Live(s: State, id: DocId) {
    || id in s.jobs
    || (id in s.handlers && (s.handlers[id].pc.Inserted? || MayFinish(s.handlers[id].pc)))
  }

  // ----- nothing finishes a document that is not live -----

  ghost predicate Stuck(s: State, id: DocId) {
    Submitted(s.handlers, id) && !Live(s, id) && EventsOf(s.t.outbox, id) == []
  }

  lemma HandlerStepStuck(cfg: Config, env: Env, s: State, step: Step, id: DocId)
    requires Inv(s) && Stuck(s, id) && Enabled(env, s, step) && OfHandler(step) && !step.RunInline?
    ensures Stuck(Apply(cfg, env, s, step), id)
  {
    HandlersWriteNothing(cfg, env, s, step);
    if step.id == id {
      assert HandlerOk(s.handlers[id]);
    }
  }

  lemma RunInlineStuck(cfg: Config, env: Env, s: State, h: DocId, c: Choice, id: DocId)
    requires Inv(s) && Stuck(s, id) && Enabled(env, s, RunInline(h, c))
    ensures Stuck(Apply(cfg, env, s, RunInline(h, c)), id)
  {
    RunStepIsOnlyFor(cfg, s.t, h, s.handlers[h].pc.pc, c, s.now);
  }

  lemma LeaveStuck(cfg: Config, s: State, h: DocId, committed: bool, pc: HandlerPc, id: DocId)
    requires Stuck(s, id) && h in s.handlers && (committed ==> MayCommit(s.handlers[h].pc))
    requires pc.Cancelling? ==> s.handlers[h].pc.Inline?
    requires pc.Cancelling? || pc.Answered? || pc.Crashed?
    ensures Stuck(At(if committed then Concluding(s, h, CommitOf(cfg, s.t, h, s.handlers[h].pc, s.now)) else s, h, pc), id)
  {
    if committed {
      CommitIsOnlyFor(cfg, s.t, h, s.handlers[h].pc, s.now);
    }
  }

  lemma LeaveStepStuck(cfg: Config, env: Env, s: State, step: Step, id: DocId)
    requires Inv(s) && Stuck(s, id) && Enabled(env, s, step) && (step.Cancel? || step.FinishCancelled? || step.Crash?)
    ensures Stuck(Apply(cfg, env, s, step), id)
  {
    match step
    case Cancel(h, committed) => LeaveStuck(cfg, s, h, committed, Cancelling, id);
    case FinishCancelled(h, fault) => LeaveStuck(cfg, s, h, !fault.RollsBack?, Answered(Cancelled), id);
    case Crash(h, committed) => LeaveStuck(cfg, s, h, committed, Crashed, id);
  }

  lemma WorkerStuck(cfg: Config, env: Env, s: State, step: Step, id: DocId)
    requires Inv(s) && Stuck(s, id) && Enabled(env, s, step) && (step.StartWorker? || step.RunWorker? || step.KillWorker?)
    ensures Stuck(Apply(cfg, env, s, step), id)
  {
    if !step.StartWorker? {
      var r := s.workers[step.worker];
      assert r.docId in s.jobs;
      if step.RunWorker? {
        RunStepIsOnlyFor(cfg, s.t, r.docId, r.pc, step.choice, s.now);
      } else if step.committed {
        FinishIsOnlyFor(cfg, s.t, r.docId, r.pc.doc, r.pc.outcome, s.now);
      }
    }
  }

  lemma OtherStepStuck(cfg: Config, env: Env, s: State, step: Step, id: DocId)
    requires Inv(s) && Stuck(s, id) && Enabled(env, s, step)
    requires step.ListExpired? || step.Purge? || step.StartPoll? || step.Produce? || step.Mark? || step.EndPoll? || step.Elapse?
    ensures Stuck(Apply(cfg, env, s, step), id)
  {
    var u := Apply(cfg, env, s, step);
    if step.ListExpired? || step.Purge? {
      SweepsKeepEvents(cfg, env, s, step);
      OthersKeepRows(cfg, env, s, step);
    } else {
      PollsKeepRows(cfg, env, s, step);
      LeasesKeepEvents(s.t.outbox, u.t.outbox, id);
    }
  }

  lemma StepKeepsStuck(cfg: Config, env: Env, s: State, step: Step, id: DocId)
    requires Inv(s) && Stuck(s, id) && Enabled(env, s, step)
    ensures Stuck(Apply(cfg, env, s, step), id)
  {
    if step.RunInline? { RunInlineStuck(cfg, env, s, step.id, step.choice, id); }
    else if OfHandler(step) { HandlerStepStuck(cfg, env, s, step, id); }
    else if step.Cancel? || step.FinishCancelled? || step.Crash? { LeaveStepStuck(cfg, env, s, step, id); }
    else if step.StartWorker? || step.RunWorker? || step.KillWorker? { WorkerStuck(cfg, env, s, step, id); }
    else { OtherStepStuck(cfg, env, s, step, id); }
  }

  lemma {:induction false} StuckForGood(cfg: Config, env: Env, s: State, steps: seq<Step>, id: DocId)
    requires Inv(s) && Stuck(s, id) && Possible(cfg, env, s, steps)
    ensures var u := After(cfg, env, s, steps);
      Stuck(u, id) && (id in u.t.documents ==> !u.t.documents[id].status.Terminal())
    decreases |steps|
  {
    if steps == [] {
      if id in s.t.documents {
        assert RowOk(s.t.documents[id], EventsOf(s.t.outbox, id), id in s.purged);
      }
    } else {
      StepKeeps(cfg, env, s, steps[0]);
      StepKeepsStuck(cfg, env, s, steps[0], id);
      StuckForGood(cfg, env, Apply(cfg, env, s, steps[0]), steps[1..], id);
    }
  }

  // ----- a live document can be finished -----

  ghost predicate EndsIn(cfg: Config, env: Env, s: State, steps: seq<Step>, id: DocId) {
    && Possible(cfg, env, s, steps)
    && var u := After(cfg, env, s, steps);
    && id in u.t.documents && u.t.documents[id].status.Terminal()
  }

  ghost predicate CanEnd(cfg: Config, env: Env, s: State, id: DocId) {
    exists steps :: EndsIn(cfg, env, s, steps, id)
  }

  lemma FirstThenEnds(cfg: Config, env: Env, s: State, step: Step, id: DocId)
    requires Enabled(env, s, step) && CanEnd(cfg, env, Apply(cfg, env, s, step), id)
    ensures CanEnd(cfg, env, s, id)
  {
    var u := Apply(cfg, env, s, step);
    var steps :| EndsIn(cfg, env, u, steps, id);
    OneStep(cfg, env, s, step);
    Compose(cfg, env, s, [step], steps);
    assert EndsIn(cfg, env, s, [step] + steps, id);
  }

  lemma AlreadyEnded(cfg: Config, env: Env, s: State, id: DocId)
    requires id in s.t.documents && s.t.documents[id].status.Terminal()
    ensures CanEnd(cfg, env, s, id)
  {
    assert EndsIn(cfg, env, s, [], id);
  }

  lemma CancelledCanEnd(cfg: Config, env: Env, s: State, id: DocId)
    requires id in s.handlers && s.handlers[id].pc.CancelRead? && id in s.t.documents
    ensures CanEnd(cfg, env, s, id)
  {
    AlreadyEnded(cfg, env, Apply(cfg, env, s, FinishCancelled(id, Fine)), id);
    FirstThenEnds(cfg, env, s, FinishCancelled(id, Fine), id);
  }

  lemma CancellingCanEnd(cfg: Config, env: Env, s: State, id: DocId)
    requires id in s.handlers && s.handlers[id].pc.Cancelling? && id in s.t.documents
    ensures CanEnd(cfg, env, s, id)
  {
    CancelledCanEnd(cfg, env, Apply(cfg, env, s, ReadCancelled(id)), id);
    FirstThenEnds(cfg, env, s, ReadCancelled(id), id);
  }

  lemma InlineCanEnd(cfg: Config, env: Env, s: State, id: DocId)
    requires id in s.handlers && s.handlers[id].pc.Inline? && !s.handlers[id].pc.pc.Ended? && id in s.t.documents
    ensures CanEnd(cfg, env, s, id)
  {
    CancellingCanEnd(cfg, env, Apply(cfg, env, s, Cancel(id, false)), id);
    FirstThenEnds(cfg, env, s, Cancel(id, false), id);
  }

  predicate WorkerAt(s: State, w: nat, id: DocId, pc: Pc) {
    w in s.workers && s.workers[w].docId == id && s.workers[w].pc == pc
  }

  lemma FinishingCanEnd(cfg: Config, env: Env, s: State, w: nat, id: DocId, pc: Pc)
    requires WorkerAt(s, w, id, pc) && pc.Finishing? && pc.outcome.status == Failed && id in s.t.documents
    ensures CanEnd(cfg, env, s, id)
  {
    AlreadyEnded(cfg, env, Apply(cfg, env, s, RunWorker(w, DoFinish(Fine, ""))), id);
    FirstThenEnds(cfg, env, s, RunWorker(w, DoFinish(Fine, "")), id);
  }

  lemma WorkingCanEnd(cfg: Config, env: Env, s: State, w: nat, id: DocId, doc: Row)
    requires WorkerAt(s, w, id, Working(doc)) && id in s.t.documents
    ensures CanEnd(cfg, env, s, id)
  {
    var u := Apply(cfg, env, s, RunWorker(w, DoStages(OtherError(""))));
    FinishingCanEnd(cfg, env, u, w, id, u.workers[w].pc);
    FirstThenEnds(cfg, env, s, RunWorker(w, DoStages(OtherError(""))), id);
  }

  lemma ReadCanEnd(cfg: Config, env: Env, s: State, w: nat, id: DocId, doc: Row)
    requires WorkerAt(s, w, id, Read(doc)) && id in s.t.documents
    ensures CanEnd(cfg, env, s, id)
  {
    WorkingCanEnd(cfg, env, Apply(cfg, env, s, RunWorker(w, DoMark)), w, id, doc);
    FirstThenEnds(cfg, env, s, RunWorker(w, DoMark), id);
  }

  lemma BeginCanEnd(cfg: Config, env: Env, s: State, w: nat, id: DocId)
    requires WorkerAt(s, w, id, Begin) && Processable(s.t, id)
    ensures CanEnd(cfg, env, s, id)
  {
    ReadCanEnd(cfg, env, Apply(cfg, env, s, RunWorker(w, DoRead)), w, id, s.t.documents[id]);
    FirstThenEnds(cfg, env, s, RunWorker(w, DoRead), id);
  }

  ghost function Active(s: State, id: DocId): set<nat> {
    set w | w in s.workers && s.workers[w].docId == id && !s.workers[w].pc.Ended?
  }

  /** Workers may die, so that a new one may always start in the end. */
  lemma {:induction false} JobCanEnd(cfg: Config, env: Env, s: State, id: DocId)
    requires id in s.jobs && Processable(s.t, id)
    ensures CanEnd(cfg, env, s, id)
    decreases Active(s, id)
  {
    if w :| w in Active(s, id) {
      var u := Apply(cfg, env, s, KillWorker(w, false));
      assert Active(u, id) == Active(s, id) - {w};
      JobCanEnd(cfg, env, u, id);
      FirstThenEnds(cfg, env, s, KillWorker(w, false), id);
    } else {
      assert !ActiveWorker(s, id) by {
        forall w | w in s.workers ensures w !in Active(s, id) { }
      }
      var w := Unused(s.workers.Keys);
      BeginCanEnd(cfg, env, Apply(cfg, env, s, StartWorker(w, id)), w, id);
      FirstThenEnds(cfg, env, s, StartWorker(w, id), id);
    }
  }

  lemma {:induction false} Unused(used: set<nat>) returns (n: nat)
    ensures forall m <- used :: m < n
    decreases used
  {
    n := 0;
    if used != {} {
      var m :| m in used;
      var k := Unused(used - {m});
      n := if m < k then k else m + 1;
      assert forall x <- used :: x == m || x in used - {m};
    }
  }

  lemma InsertedCanEnd(cfg: Config, env: Env, s: State, id: DocId)
    requires id in s.handlers && s.handlers[id].pc.Inserted? && Processable(s.t, id)
    ensures CanEnd(cfg, env, s, id)
  {
    JobCanEnd(cfg, env, Apply(cfg, env, s, Enqueue(id, false, true)), id);
    FirstThenEnds(cfg, env, s, Enqueue(id, false, true), id);
  }

  /** A document that is not terminal yet can come to be so exactly when it was enqueued or its request is still at it. */
  lemma {:induction false} RecoverableIff(cfg: Config, env: Env, steps: seq<Step>, id: DocId)
    requires Possible(cfg, env, INITIAL, steps)
    requires var s := After(cfg, env, INITIAL, steps); id in s.t.documents && !s.t.documents[id].status.Terminal()
    ensures var s := After(cfg, env, INITIAL, steps); CanEnd(cfg, env, s, id) <==> Live(s, id)
  {
    RunKeeps(cfg, env, INITIAL, steps);
    var s := After(cfg, env, INITIAL, steps);
    if Live(s, id) {
      LiveCanEnd(cfg, env, s, id);
    } else {
      assert RowOk(s.t.documents[id], EventsOf(s.t.outbox, id), id in s.purged);
      forall more | Possible(cfg, env, s, more) ensures !EndsIn(cfg, env, s, more, id) {
        StuckForGood(cfg, env, s, more, id);
      }
    }
  }

  lemma LiveCanEnd(cfg: Config, env: Env, s: State, id: DocId)
    requires Inv(s) && Processable(s.t, id) && Live(s, id)
    ensures CanEnd(cfg, env, s, id)
  {
    if id in s.jobs { JobCanEnd(cfg, env, s, id); }
    else {
      assert HandlerOk(s.handlers[id]);
      match s.handlers[id].pc
      case Inserted => InsertedCanEnd(cfg, env, s, id);
      case Inline(_) => InlineCanEnd(cfg, env, s, id);
      case Cancelling => CancellingCanEnd(cfg, env, s, id);
      case CancelRead(_) => CancelledCanEnd(cfg, env, s, id);
    }
  }

  /** A transient failure in the synchronous request leaves its document processing for good, whatever happens. */
  lemma {:induction false} TransientInRequestIsForGood(cfg: Config, env: Env, steps: seq<Step>, id: DocId, text: string, more: seq<Step>)
    requires Possible(cfg, env, INITIAL, steps)
    requires var s := After(cfg, env, INITIAL, steps);
      && Enabled(env, s, RunInline(id, DoStages(ProviderTransient(text))))
      && Possible(cfg, env, Apply(cfg, env, s, RunInline(id, DoStages(ProviderTransient(text)))), more)
    ensures var s := After(cfg, env, INITIAL, steps);
      var u := After(cfg, env, Apply(cfg, env, s, RunInline(id, DoStages(ProviderTransient(text)))), more);
      EventsOf(u.t.outbox, id) == [] && id in u.t.documents && u.t.documents[id].status == Processing
  {
    RunKeepsInline(cfg, env, INITIAL, steps);
    RunKeepsServed(cfg, env, INITIAL, steps);
    var s := After(cfg, env, INITIAL, steps);
    FailsForGood(cfg, env, s, id, text);
    var t := Apply(cfg, env, s, RunInline(id, DoStages(ProviderTransient(text))));
    FailedStays(cfg, env, t, id, more);
  }

  /** A request that failed without an event, past `mark_processing`. */
  ghost predicate GaveUp(s: State, id: DocId) {
    && Stuck(s, id) && s.handlers[id].pc == Answered(ProcessingFailed)
    && id in s.t.documents && s.t.documents[id].status != Queued
  }

  lemma FailsForGood(cfg: Config, env: Env, s: State, id: DocId, text: string)
    requires Inv(s) && AllInline(s) && AllServed(env, s) && Enabled(env, s, RunInline(id, DoStages(ProviderTransient(text))))
    ensures var t := Apply(cfg, env, s, RunInline(id, DoStages(ProviderTransient(text))));
      Inv(t) && AllServed(env, t) && GaveUp(t, id)
  {
    var step := RunInline(id, DoStages(ProviderTransient(text)));
    StepKeeps(cfg, env, s, step);
    StepKeepsServed(cfg, env, s, step);
    assert s.handlers[id].inserted && id !in s.jobs by { assert HandlerOk(s.handlers[id]); }
    assert InlineOk(s.t, id, s.handlers[id].pc.pc) && Served(env, s, id);
    LeavesNothingLive(cfg, env, s, id, text);
  }

  lemma LeavesNothingLive(cfg: Config, env: Env, s: State, id: DocId, text: string)
    requires Enabled(env, s, RunInline(id, DoStages(ProviderTransient(text))))
    requires s.handlers[id].inserted && id !in s.jobs && EventsOf(s.t.outbox, id) == []
    requires id in s.t.documents && s.t.documents[id].status != Queued
    ensures GaveUp(Apply(cfg, env, s, RunInline(id, DoStages(ProviderTransient(text)))), id)
  {
  }

  lemma {:induction false} FailedStays(cfg: Config, env: Env, s: State, id: DocId, steps: seq<Step>)
    requires Inv(s) && AllServed(env, s) && GaveUp(s, id) && Possible(cfg, env, s, steps)
    ensures var u := After(cfg, env, s, steps);
      EventsOf(u.t.outbox, id) == [] && id in u.t.documents && u.t.documents[id].status == Processing
  {
    StuckForGood(cfg, env, s, steps, id);
    AnsweredStays(cfg, env, s, id, steps);
    RunKeepsServed(cfg, env, s, steps);
    RunKeeps(cfg, env, s, steps);
    assert Served(env, After(cfg, env, s, steps), id);
  }

  /** An answer is final. */
  lemma {:induction false} AnsweredStays(cfg: Config, env: Env, s: State, id: DocId, steps: seq<Step>)
    requires id in s.handlers && s.handlers[id].pc.Answered? && Possible(cfg, env, s, steps)
    ensures id in After(cfg, env, s, steps).handlers && After(cfg, env, s, steps).handlers[id] == s.handlers[id]
    decreases |steps|
  {
    if steps != [] {
      AnswerKept(cfg, env, s, id, steps[0]);
      AnsweredStays(cfg, env, Apply(cfg, env, s, steps[0]), id, steps[1..]);
    }
  }

  lemma AnswerKept(cfg: Config, env: Env, s: State, id: DocId, step: Step)
    requires id in s.handlers && s.handlers[id].pc.Answered? && Enabled(env, s, step)
    ensures id in Apply(cfg, env, s, step).handlers && Apply(cfg, env, s, step).handlers[id] == s.handlers[id]
  {
  }
}
