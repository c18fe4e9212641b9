/** Who writes events: each step writes those of one document at most. */
module Events {
  import opened Prelude
  import opened Statuses
  import opened Documents
  import opened Envelopes
  import opened Tables
  import opened Stores
  import opened Pipeline
  import opened Lifecycle
  import opened Safety

  /** A request that may yet finish its document. */
  predicate MayFinish(pc: HandlerPc) {
    pc.Inline? || pc.Cancelling? || pc.CancelRead?
  }

  predicate Marked(t: Tables, id: DocId) {
    id in t.documents ==> t.documents[id].status != Queued
  }

  /** Only `id` may have got events. */
  ghost predicate OnlyFor(a: seq<Event>, b: seq<Event>, id: DocId) {
    forall d: DocId :: d != id ==> EventsOf(b, d) == EventsOf(a, d)
  }

  lemma FinishIsOnlyFor(cfg: Config, t: Tables, id: DocId, doc: Row, o: Outcome, now: Time)
    ensures var u := FinishTables(cfg, t, id, doc, o, now);
      OnlyFor(t.outbox, u.outbox, id) && |EventsOf(u.outbox, id)| == |EventsOf(t.outbox, id)| + 1
  {
    var u := FinishTables(cfg, t, id, doc, o, now);
    forall d: DocId ensures EventsOf(u.outbox, d) == EventsOf(t.outbox, d) + if d == id then [u.outbox[|t.outbox|].payload] else [] {
      EventsOfAppend(t.outbox, u.outbox[|t.outbox|], d);
    }
  }

  lemma RunStepIsOnlyFor(cfg: Config, t: Tables, id: DocId, pc: Pc, c: Choice, now: Time)
    requires Fits(pc, c)
    ensures var (u, next) := RunStep(cfg, t, id, pc, c, now);
      && OnlyFor(t.outbox, u.outbox, id)
      && |EventsOf(u.outbox, id)| == |EventsOf(t.outbox, id)| + (if Writes(c) then 1 else 0)
      && (!Writes(c) ==> u.outbox == t.outbox)
      && (Writes(c) && c.fault.Fine? ==> next.Ended?)
  {
    if Writes(c) {
      FinishIsOnlyFor(cfg, t, id, pc.doc, pc.outcome, now);
    }
  }

  lemma CommitIsOnlyFor(cfg: Config, t: Tables, id: DocId, pc: HandlerPc, now: Time)
    requires MayCommit(pc)
    ensures var u := CommitOf(cfg, t, id, pc, now);
      OnlyFor(t.outbox, u.outbox, id) && |EventsOf(u.outbox, id)| == |EventsOf(t.outbox, id)| + 1
  {
    match pc
    case Inline(Finishing(doc, o, _, _)) => FinishIsOnlyFor(cfg, t, id, doc, o, now);
    case CancelRead(doc) => FinishIsOnlyFor(cfg, t, id, doc, CANCELLED, now);
  }

  /** Apart from its run, a handler writes no event, and comes to finish its document only by inserting it. */
  lemma HandlersWriteNothing(cfg: Config, env: Env, s: State, step: Step)
    requires Enabled(env, s, step) && OfHandler(step) && !step.RunInline?
    ensures var u := Apply(cfg, env, s, step);
      && u.t.outbox == s.t.outbox && u.workers == s.workers
      && step.id in u.handlers && u.handlers == s.handlers[step.id := u.handlers[step.id]]
      && (MayFinish(u.handlers[step.id].pc) ==>
            step.id in s.handlers && (s.handlers[step.id].pc.Arrived? || MayFinish(s.handlers[step.id].pc)))
  {
  }

  /** What was not inserted has no events. */
  lemma Unannounced(s: State, id: DocId)
    requires Inv(s) && !Submitted(s.handlers, id)
    ensures EventsOf(s.t.outbox, id) == []
  {
    forall i | 0 <= i < |s.t.outbox| ensures s.t.outbox[i].docId != id {
      assert EventOk(s.t.outbox[i], s.handlers);
    }
    NoEvents(s.t.outbox, id);
  }

  lemma WorkersWriteOnlyFor(cfg: Config, env: Env, s: State, step: Step)
    requires Enabled(env, s, step) && (step.RunWorker? || step.KillWorker?)
    ensures var u := Apply(cfg, env, s, step);
      OnlyFor(s.t.outbox, u.t.outbox, s.workers[step.worker].docId) && u.handlers == s.handlers && u.jobs == s.jobs
  {
    var r := s.workers[step.worker];
    if step.RunWorker? {
      RunStepIsOnlyFor(cfg, s.t, r.docId, r.pc, step.choice, s.now);
    } else if step.committed {
      FinishIsOnlyFor(cfg, s.t, r.docId, r.pc.doc, r.pc.outcome, s.now);
    }
  }

  /** Steps that neither run a document nor belong to a request. */
  predicate Quiet(step: Step) {
    || step.StartWorker? || step.ListExpired? || step.Purge?
    || step.StartPoll? || step.Produce? || step.Mark? || step.EndPoll? || step.Elapse?
  }

  lemma SweepsKeepEvents(cfg: Config, env: Env, s: State, step: Step)
    requires Enabled(env, s, step) && (step.ListExpired? || step.Purge? || step.StartWorker?)
    ensures var u := Apply(cfg, env, s, step);
      u.t.outbox == s.t.outbox && u.handlers == s.handlers && u.jobs == s.jobs && (!step.StartWorker? ==> u.workers == s.workers)
  {
  }

  lemma QuietKeepsEvents(cfg: Config, env: Env, s: State, step: Step)
    requires Enabled(env, s, step) && Quiet(step)
    ensures var u := Apply(cfg, env, s, step);
      u.handlers == s.handlers && u.jobs == s.jobs && forall d: DocId :: EventsOf(u.t.outbox, d) == EventsOf(s.t.outbox, d)
  {
    if step.ListExpired? || step.Purge? || step.StartWorker? {
      SweepsKeepEvents(cfg, env, s, step);
    } else {
      PollsKeepRows(cfg, env, s, step);
      forall d: DocId ensures EventsOf(Apply(cfg, env, s, step).t.outbox, d) == EventsOf(s.t.outbox, d) {
        LeasesKeepEvents(s.t.outbox, Apply(cfg, env, s, step).t.outbox, d);
      }
    }
  }
}
