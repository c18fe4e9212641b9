/** What holds of a request while it runs the pipeline, whatever the environment does. */
module InRequest {
  import opened Prelude
  import opened Statuses
  import opened Documents
  import opened Envelopes
  import opened Tables
  import opened Stores
  import opened Pipeline
  import opened Lifecycle
  import opened Safety
  import opened Runs
  import opened Events

  /** Until the run's first finish its document has no event; once past `mark_processing`, its row is not queued. */
  ghost predicate InlineOk(t: Tables, id: DocId, pc: Pc) {
    match pc
    case Begin => EventsOf(t.outbox, id) == []
    case Read(_) => EventsOf(t.outbox, id) == []
    case Working(_) => EventsOf(t.outbox, id) == [] && Marked(t, id)
    case Finishing(_, _, _, _) => Marked(t, id)
    case Ended(_) => true
  }

  ghost predicate AllInline(s: State) {
    forall id :: id in s.handlers && s.handlers[id].pc.Inline? ==> InlineOk(s.t, id, s.handlers[id].pc.pc)
  }

  /** What one document's handler or worker does disturbs no other request. */
  lemma OneInline(s: State, u: State, id: DocId)
    requires Inv(s) && AllInline(s) && Kept(s, u) && OnlyFor(s.t.outbox, u.t.outbox, id)
    requires u.handlers.Keys <= s.handlers.Keys + {id}
    requires forall x :: x in u.handlers && x != id ==> u.handlers[x] == s.handlers[x]
    requires id in u.handlers && u.handlers[id].pc.Inline? ==> InlineOk(u.t, id, u.handlers[id].pc.pc)
    ensures AllInline(u)
  {
    forall x | x in u.handlers && u.handlers[x].pc.Inline? && x != id ensures InlineOk(u.t, x, u.handlers[x].pc.pc) {
      assert HandlerOk(s.handlers[x]);
      assert InlineOk(s.t, x, s.handlers[x].pc.pc);
    }
  }

  lemma RunStepInline(cfg: Config, t: Tables, id: DocId, pc: Pc, c: Choice, now: Time)
    requires InlineOk(t, id, pc) && Fits(pc, c) && (pc.Finishing? ==> pc.outcome.WellFormed())
    ensures var (u, next) := RunStep(cfg, t, id, pc, c, now); InlineOk(u, id, next)
  {
    if c.DoStages? {
      OutcomesAreWellFormed(cfg, pc.doc, c.stages);
    }
  }

  lemma RunMovesInline(s: State, u: State, id: DocId, next: Pc)
    requires Inv(s) && AllInline(s) && Kept(s, u) && id in s.handlers
    requires u.handlers == s.handlers[id := s.handlers[id].(pc := AfterRun(next))]
    requires OnlyFor(s.t.outbox, u.t.outbox, id) && InlineOk(u.t, id, next)
    ensures AllInline(u)
  {
    OneInline(s, u, id);
  }

  lemma RunInlineInline(cfg: Config, env: Env, s: State, id: DocId, c: Choice)
    requires Inv(s) && AllInline(s) && Enabled(env, s, RunInline(id, c))
    ensures AllInline(Apply(cfg, env, s, RunInline(id, c)))
  {
    var pc := s.handlers[id].pc.pc;
    assert InlineOk(s.t, id, pc) && PcOk(pc, s.handlers[id].submission) by { assert HandlerOk(s.handlers[id]); }
    RunStepIsOnlyFor(cfg, s.t, id, pc, c, s.now);
    RunStepInline(cfg, s.t, id, pc, c, s.now);
    StepKeeps(cfg, env, s, RunInline(id, c));
    RunMovesInline(s, Apply(cfg, env, s, RunInline(id, c)), id, RunStep(cfg, s.t, id, pc, c, s.now).1);
  }

  lemma HandlerStepInline(cfg: Config, env: Env, s: State, step: Step)
    requires Inv(s) && AllInline(s) && Enabled(env, s, step) && OfHandler(step) && !step.RunInline?
    ensures AllInline(Apply(cfg, env, s, step))
  {
    var u := Apply(cfg, env, s, step);
    HandlersWriteNothing(cfg, env, s, step);
    if u.handlers[step.id].pc.Inline? {
      InsertsInline(cfg, env, s, step);
      assert HandlerOk(s.handlers[step.id]);
      Unannounced(s, step.id);
    }
    StepKeeps(cfg, env, s, step);
    OneInline(s, u, step.id);
  }

  lemma InsertsInline(cfg: Config, env: Env, s: State, step: Step)
    requires Enabled(env, s, step) && OfHandler(step) && !step.RunInline?
    requires step.id in Apply(cfg, env, s, step).handlers && Apply(cfg, env, s, step).handlers[step.id].pc.Inline?
    ensures step.Insert? && Apply(cfg, env, s, step).handlers[step.id].pc == Inline(Begin)
  {
  }

  lemma LeaveInline(cfg: Config, s: State, id: DocId, committed: bool, pc: HandlerPc)
    requires Inv(s) && AllInline(s) && id in s.handlers && (committed ==> MayCommit(s.handlers[id].pc))
    requires HandlerOk(s.handlers[id].(pc := pc)) && !pc.Inline?
    ensures AllInline(At(if committed then Concluding(s, id, CommitOf(cfg, s.t, id, s.handlers[id].pc, s.now)) else s, id, pc))
  {
    var u := At(if committed then Concluding(s, id, CommitOf(cfg, s.t, id, s.handlers[id].pc, s.now)) else s, id, pc);
    LeavingKeeps(cfg, s, id, committed, pc);
    if committed {
      CommitIsOnlyFor(cfg, s.t, id, s.handlers[id].pc, s.now);
    }
    OneInline(s, u, id);
  }

  lemma LeaveStepInline(cfg: Config, env: Env, s: State, step: Step)
    requires Inv(s) && AllInline(s) && Enabled(env, s, step) && (step.Cancel? || step.FinishCancelled? || step.Crash?)
    ensures AllInline(Apply(cfg, env, s, step))
  {
    assert HandlerOk(s.handlers[step.id]);
    match step
    case Cancel(id, committed) => LeaveInline(cfg, s, id, committed, Cancelling);
    case FinishCancelled(id, fault) => LeaveInline(cfg, s, id, !fault.RollsBack?, Answered(Cancelled));
    case Crash(id, committed) => LeaveInline(cfg, s, id, committed, Crashed);
  }

  /** A worker's document was submitted to the queue, not with a synchronous request. */
  lemma WorkerStepInline(cfg: Config, env: Env, s: State, step: Step)
    requires Inv(s) && AllInline(s) && Enabled(env, s, step) && (step.RunWorker? || step.KillWorker?)
    ensures AllInline(Apply(cfg, env, s, step))
  {
    var u := Apply(cfg, env, s, step);
    var r := s.workers[step.worker];
    assert r.docId in s.jobs && HandlerOk(s.handlers[r.docId]);
    WorkersWriteOnlyFor(cfg, env, s, step);
    StepKeeps(cfg, env, s, step);
    OneInline(s, u, r.docId);
  }

  lemma QuietInline(s: State, u: State)
    requires Inv(s) && AllInline(s) && Kept(s, u) && u.handlers == s.handlers
    requires forall d: DocId :: EventsOf(u.t.outbox, d) == EventsOf(s.t.outbox, d)
    ensures AllInline(u)
  {
    forall x | x in u.handlers && u.handlers[x].pc.Inline? ensures InlineOk(u.t, x, u.handlers[x].pc.pc) {
      assert HandlerOk(s.handlers[x]);
      assert InlineOk(s.t, x, s.handlers[x].pc.pc);
    }
  }

  lemma QuietStepInline(cfg: Config, env: Env, s: State, step: Step)
    requires Inv(s) && AllInline(s) && Enabled(env, s, step) && Quiet(step)
    ensures AllInline(Apply(cfg, env, s, step))
  {
    QuietKeepsEvents(cfg, env, s, step);
    StepKeeps(cfg, env, s, step);
    QuietInline(s, Apply(cfg, env, s, step));
  }

  lemma StepKeepsInline(cfg: Config, env: Env, s: State, step: Step)
    requires Inv(s) && AllInline(s) && Enabled(env, s, step)
    ensures AllInline(Apply(cfg, env, s, step))
  {
    if step.RunInline? { RunInlineInline(cfg, env, s, step.id, step.choice); }
    else if OfHandler(step) { HandlerStepInline(cfg, env, s, step); }
    else if step.Cancel? || step.FinishCancelled? || step.Crash? { LeaveStepInline(cfg, env, s, step); }
    else if step.RunWorker? || step.KillWorker? { WorkerStepInline(cfg, env, s, step); }
    else { QuietStepInline(cfg, env, s, step); }
  }

  lemma {:induction false} RunKeepsInline(cfg: Config, env: Env, s: State, steps: seq<Step>)
    requires Inv(s) && AllInline(s) && Possible(cfg, env, s, steps)
    ensures Inv(After(cfg, env, s, steps)) && AllInline(After(cfg, env, s, steps))
    decreases |steps|
  {
    if steps != [] {
      StepKeeps(cfg, env, s, steps[0]);
      StepKeepsInline(cfg, env, s, steps[0]);
      RunKeepsInline(cfg, env, Apply(cfg, env, s, steps[0]), steps[1..]);
    }
  }
}
