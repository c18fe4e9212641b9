/** The request handlers of src/ocr_engine/api/servicer.py, each run on its own, and as runs of the lifecycle machine. */
module Servicing {
  import opened Prelude
  import opened Statuses
  import opened Documents
  import opened Envelopes
  import opened Tables
  import opened Stores
  import opened Pipeline
  import opened Lifecycle
  import opened Runs

  /** How an enqueue ends: it may raise although the job got through. */
  datatype Enqueuing = Enqueued | Refused | LostAnswer

  // ----- what a handler on its own does -----

  function WithQueued(t: Tables, id: DocId, sub: Submission, now: Time): Tables {
    t.(documents := t.documents[id := QueuedRow(sub, now)])
  }

  ghost function Repeated(t: Tables, rpc: Rpc, sub: Submission): Answer {
    RepeatAnswer(t, Handler(rpc, sub, false, Conflict))
  }

  /** The tables, whether a job is enqueued, and the answer. */
  ghost function SubmitAlone(t: Tables, id: DocId, sub: Submission, enqueuing: Enqueuing, deleted: bool, now: Time)
    : (Tables, bool, Answer)
  {
    if !Insertable(t.documents, id, sub.key) then (t, false, Repeated(t, SubmitRpc, sub))
    else
      match enqueuing
      case Enqueued => (WithQueued(t, id, sub, now), true, Accepted)
      case Refused => (if deleted then t else WithQueued(t, id, sub, now), false, QueueUnavailable)
      case LostAnswer => (if deleted then t else WithQueued(t, id, sub, now), true, QueueUnavailable)
  }

  /** A cancelled request fails its document, if it can. */
  function CancelTables(cfg: Config, t: Tables, id: DocId, mark: Fault, now: Time): Tables {
    if id !in t.documents || mark.RollsBack? then t
    else FinishTables(cfg, t, id, t.documents[id], CANCELLED, now)
  }

  /** What befalls a request: how its stages and writes end, and where it is cancelled, if it gets there. */
  datatype Fate = Fate(stages: Stages, first: Fault, second: Fault, text: string, stop: Option<Stop>, mark: Fault)

  ghost function ProcessAlone(cfg: Config, t: Tables, id: DocId, sub: Submission, f: Fate, now: Time): (Tables, Answer) {
    if !Insertable(t.documents, id, sub.key) then (t, Repeated(t, ProcessRpc, sub))
    else AnswerAlone(cfg, id, RunUntil(cfg, WithQueued(t, id, sub, now), id, f.stages, f.first, f.second, f.text, f.stop, now),
                     f.mark, now)
  }

  /** The answer after the run of the pipeline in the request. */
  function AnswerAlone(cfg: Config, id: DocId, run: (Tables, Option<Ending>), mark: Fault, now: Time): (Tables, Answer) {
    var (u, ending) := run;
    match ending
    case None => (CancelTables(cfg, u, id, mark, now), Cancelled)
    case Some(e) =>
      (u, if e == RaisedTransient || e == RaisedError then ProcessingFailed
          else if id in u.documents then Responded(u.documents[id]) else Vanished)
  }

  // ----- what the callers are told -----

  /** What a caller learns of a key that is taken: a row that holds it, or that none does. */
  ghost predicate TellsHolder(t: Tables, key: nat, d: DocId) {
    d in t.documents && t.documents[d].submission.key == key
  }

  /** A submit is accepted exactly when its row went in and its job was enqueued without an error; it is then queued.
    * Where the enqueue raised, the row is gone again if it could be deleted; a taken id or key leaves everything. */
  ghost predicate SubmitTells(t: Tables, u: Tables, id: DocId, sub: Submission, enqueuing: Enqueuing, deleted: bool, answer: Answer,
                              now: Time)
  {
    && u.outbox == t.outbox
    && if id in t.documents || exists d :: TellsHolder(t, sub.key, d) then
         && u == t && answer.AlreadyExists?
         && match answer.existing
            case Some(d) => TellsHolder(t, sub.key, d)
            case None => !exists d :: TellsHolder(t, sub.key, d)
       else
         && answer == (if enqueuing.Enqueued? then Accepted else QueueUnavailable)
         && u.documents - {id} == t.documents
         && (id in u.documents <==> enqueuing.Enqueued? || !deleted)
         && (id in u.documents ==> u.documents[id] == Row(sub, Queued, None, None, None, None, None, now, now))
  }

  /** Whether a request whose row went in gets to where it is cancelled. */
  predicate CutShort(cfg: Config, sub: Submission, f: Fate) {
    f.stop.Some? &&
    match f.stop.value
    case AtRead => true
    case AtMark(_) => true
    case AtStages => true
    case AtFinish(_) => !f.stages.ProviderTransient?
    case AtFailure(_) => f.stages.Recognized? && sub.docType in cfg.schemas && !f.first.Fine?
  }

  /** A request that is not cancelled is told that processing failed exactly when the provider failed for now, an unexpected
    * error came up, or the first finish raised; else it is told its own row, which is terminal and announced. A cancelled
    * one fails its document, if it can; a taken id or key leaves everything and is told the row that holds the key. */
  ghost predicate ProcessTells(cfg: Config, t: Tables, u: Tables, id: DocId, sub: Submission, f: Fate, answer: Answer, now: Time) {
    if id in t.documents || exists d :: TellsHolder(t, sub.key, d) then
      && u == t
      && match answer
         case Replayed(d, row) => TellsHolder(t, sub.key, d) && row == t.documents[d]
         case Vanished => !exists d :: TellsHolder(t, sub.key, d)
         case _ => false
    else if CutShort(cfg, sub, f) then
      && answer == Cancelled
      && (!f.mark.RollsBack? ==>
            ToldFailed(cfg, u, id, sub, "INTERNAL", "synchronous processing cancelled before completion", now))
    else if f.stages.ProviderTransient? || f.stages.OtherError? || !f.first.Fine? then
      answer == ProcessingFailed
    else
      && Announced(u, id) && u.documents[id].submission == sub
      && answer == Responded(u.documents[id])
      && (u.documents[id].status == Failed <==> !f.stages.Recognized? || sub.docType !in cfg.schemas)
  }

  lemma {:induction false} HolderOrNone(t: Tables, id: DocId, key: nat)
    ensures Insertable(t.documents, id, key) <==> id !in t.documents && !exists d :: TellsHolder(t, key, d)
  {
    if d :| TellsHolder(t, key, d) {
      assert t.documents[d].submission.key == key;
    }
    if id !in t.documents && !Insertable(t.documents, id, key) {
      var d :| d in t.documents && t.documents[d].submission.key == key;
      assert TellsHolder(t, key, d);
    }
  }

  lemma {:induction false} RepeatTells(t: Tables, rpc: Rpc, sub: Submission)
    ensures var a := Repeated(t, rpc, sub);
      if rpc.SubmitRpc? then
        a.AlreadyExists? && match a.existing
                            case Some(d) => TellsHolder(t, sub.key, d)
                            case None => !exists d :: TellsHolder(t, sub.key, d)
      else
        match a
        case Replayed(d, row) => TellsHolder(t, sub.key, d) && row == t.documents[d]
        case Vanished => !exists d :: TellsHolder(t, sub.key, d)
        case _ => false
  {
    var holder := Holder(t.documents, sub.key);
  }

  lemma {:induction false} SubmitAnswers(t: Tables, id: DocId, sub: Submission, enqueuing: Enqueuing, deleted: bool, now: Time)
    ensures var (u, _, a) := SubmitAlone(t, id, sub, enqueuing, deleted, now);
      SubmitTells(t, u, id, sub, enqueuing, deleted, a, now)
  {
    HolderOrNone(t, id, sub.key);
    RepeatTells(t, SubmitRpc, sub);
    if Insertable(t.documents, id, sub.key) {
      assert WithQueued(t, id, sub, now).documents - {id} == t.documents;
      assert t.documents - {id} == t.documents;
    }
  }

  lemma {:induction false} CutShortIff(cfg: Config, t: Tables, id: DocId, f: Fate)
    requires Processable(t, id) && f.stop.Some?
    ensures StopsAt(cfg, t, id, f.stages, f.first, f.stop.value) <==> CutShort(cfg, t.documents[id].submission, f)
  {
  }

  lemma {:induction false} ProcessAnswers(cfg: Config, t: Tables, id: DocId, sub: Submission, f: Fate, now: Time)
    ensures var (u, a) := ProcessAlone(cfg, t, id, sub, f, now);
      ProcessTells(cfg, t, u, id, sub, f, a, now)
  {
    HolderOrNone(t, id, sub.key);
    RepeatTells(t, ProcessRpc, sub);
    if Insertable(t.documents, id, sub.key) {
      FateTells(cfg, t, WithQueued(t, id, sub, now), id, sub, f, now);
    }
  }

  lemma {:induction false} FateTells(cfg: Config, t: Tables, w: Tables, id: DocId, sub: Submission, f: Fate, now: Time)
    requires Processable(w, id) && w.documents[id].submission == sub && id !in t.documents && !exists d :: TellsHolder(t, sub.key, d)
    ensures var (u, a) := AnswerAlone(cfg, id, RunUntil(cfg, w, id, f.stages, f.first, f.second, f.text, f.stop, now), f.mark, now);
      ProcessTells(cfg, t, u, id, sub, f, a, now)
  {
    if f.stop.Some? {
      CutShortIff(cfg, w, id, f);
    }
    if CutShort(cfg, sub, f) {
      var v := TablesAt(cfg, w, id, f.stages, f.first, f.text, f.stop.value, now);
      assert id in v.documents && v.documents[id].submission == sub;
      FinishTells(cfg, v, id, v.documents[id], CANCELLED, now);
    } else {
      EndingIs(cfg, w, id, f, now);
      if f.first.Fine? && !f.stages.ProviderTransient? {
        TellsItsRow(cfg, w, id, f, now);
      }
    }
  }

  lemma {:induction false} TellsItsRow(cfg: Config, w: Tables, id: DocId, f: Fate, now: Time)
    requires Processable(w, id) && f.first.Fine? && !f.stages.ProviderTransient?
    ensures var u := RunAlone(cfg, w, id, f.stages, f.first, f.second, f.text, now).0;
      var sub := w.documents[id].submission;
      && Announced(u, id) && u.documents[id].submission == sub
      && (u.documents[id].status == Failed <==> !f.stages.Recognized? || sub.docType !in cfg.schemas)
  {
    RunAloneEnds(cfg, w, id, f.stages, f.first, f.second, f.text, now);
    if f.stages.Recognized? && w.documents[id].submission.docType in cfg.schemas {
      SuccessIsTold(cfg, w, id, f.stages.lines, f.first, f.second, f.text, now);
    } else {
      RefusalsAreTold(cfg, w, id, f.stages, f.first, f.second, f.text, now);
    }
  }

  lemma {:induction false} EndingIs(cfg: Config, w: Tables, id: DocId, f: Fate, now: Time)
    requires Processable(w, id)
    ensures RunAlone(cfg, w, id, f.stages, f.first, f.second, f.text, now).1 ==
      if f.stages.ProviderTransient? then RaisedTransient
      else if f.stages.OtherError? || !f.first.Fine? then RaisedError else Finished
  {
    ReadsAndConcludes(cfg, w, id, f.stages, f.first, f.second, f.text, now);
  }

  class Servicer {
    const store: Store
    const cfg: Config
    var queue: seq<DocId>

    constructor (store: Store, cfg: Config)
      ensures this.store == store && this.cfg == cfg && queue == []
    {
      this.store, this.cfg, queue := store, cfg, [];
    }

    method SubmitDocument(id: DocId, sub: Submission, enqueuing: Enqueuing, deleted: bool) returns (answer: Answer)
      requires store.Valid()
      modifies this`queue, store`documents
      ensures store.Valid()
      ensures var (t, enqueued, a) := SubmitAlone(old(store.Contents()), id, sub, enqueuing, deleted, store.clock);
        && store.Contents() == t && answer == a
        && queue == old(queue) + if enqueued then [id] else []
      ensures SubmitTells(old(store.Contents()), store.Contents(), id, sub, enqueuing, deleted, answer, store.clock)
      ensures queue == old(queue) + if answer.Accepted? || (answer.QueueUnavailable? && enqueuing.LostAnswer?) then [id] else []
    {
      SubmitAnswers(store.Contents(), id, sub, enqueuing, deleted, store.clock);
      var inserted := store.SubmitDocument(id, sub);
      if !inserted {
        answer := Repeat(SubmitRpc, sub);
        return;
      }
      if !enqueuing.Refused? {
        queue := queue + [id];
      }
      if enqueuing.Enqueued? {
        return Accepted;
      }
      Rollback(id, deleted);
      assert deleted ==> store.documents == old(store.documents);
      return QueueUnavailable;
    }

    /** The answer to a repeated key. */
    method Repeat(rpc: Rpc, sub: Submission) returns (answer: Answer)
      requires store.Valid()
      ensures answer == Repeated(store.Contents(), rpc, sub)
    {
      var existing := store.GetIdempotentDocument(sub.key);
      if rpc.SubmitRpc? {
        return AlreadyExists(if existing.Some? then Some(existing.value.0) else None);
      }
      if existing.None? {
        return Vanished;
      }
      return Replayed(existing.value.0, existing.value.1);
    }

    /** Deletes the row of a submit whose enqueue raised; an error of the delete is only logged. */
    method Rollback(id: DocId, deleted: bool)
      requires store.Valid()
      modifies store`documents
      ensures store.Valid() && store.documents == if deleted then old(store.documents) - {id} else old(store.documents)
    {
      if deleted {
        store.DeleteDocument(id);
      }
    }

    method ProcessDocument(id: DocId, sub: Submission, f: Fate) returns (answer: Answer)
      requires store.Valid()
      modifies store`documents, store`outbox
      ensures store.Valid()
      ensures (store.Contents(), answer) == ProcessAlone(cfg, old(store.Contents()), id, sub, f, store.clock)
      ensures ProcessTells(cfg, old(store.Contents()), store.Contents(), id, sub, f, answer, store.clock)
    {
      ProcessAnswers(cfg, store.Contents(), id, sub, f, store.clock);
      var inserted := store.SubmitDocument(id, sub);
      if !inserted {
        answer := Repeat(ProcessRpc, sub);
        return;
      }
      assert store.Contents() == WithQueued(old(store.Contents()), id, sub, store.clock);
      answer := Run(id, f);
    }

    method Run(id: DocId, f: Fate) returns (answer: Answer)
      requires store.Valid()
      modifies store`documents, store`outbox
      ensures store.Valid()
      ensures (store.Contents(), answer) ==
        AnswerAlone(cfg, id, RunUntil(cfg, old(store.Contents()), id, f.stages, f.first, f.second, f.text, f.stop, store.clock),
                    f.mark, store.clock)
    {
      var ending := Pipeline.ProcessDocument(store, cfg, id, f.stages, f.first, f.second, f.text, f.stop);
      if ending.None? {
        MarkCancelled(id, f.mark);
        return Cancelled;
      }
      if ending.value.RaisedTransient? || ending.value.RaisedError? {
        return ProcessingFailed;
      }
      var doc := store.GetDocument(id);
      return if doc.Some? then Responded(doc.value) else Vanished;
    }

    /** Fails the document of a request that was cancelled, whatever its status; an error is only logged. The event's
      * trace is that of the request, which is the one its row was inserted with. */
    method MarkCancelled(id: DocId, fault: Fault)
      requires store.Valid()
      modifies store`documents, store`outbox
      ensures store.Valid()
      ensures store.Contents() == CancelTables(cfg, old(store.Contents()), id, fault, store.clock)
      ensures id in old(store.documents) && !fault.RollsBack? ==>
        ToldFailed(cfg, store.Contents(), id, old(store.documents)[id].submission, "INTERNAL",
                   "synchronous processing cancelled before completion", store.clock)
    {
      var doc := store.GetDocument(id);
      if doc.None? {
        return;
      }
      var payload := BuildEnvelope(id, doc.value.submission, Failed, None, CANCELLED.error, |store.outbox|, store.clock);
      FinishTells(cfg, store.Contents(), id, doc.value, CANCELLED, store.clock);
      var _ := store.FinishDocument(id, CANCELLED, payload, cfg.topic, doc.value.submission.traceId, fault);
    }
  }

  // ----- the same handlers as runs of the machine -----

  ghost predicate Leads(cfg: Config, s: State, steps: seq<Step>, id: DocId, t: Tables, jobs: set<DocId>, pc: HandlerPc) {
    && Possible(cfg, ANY, s, steps)
    && var u := After(cfg, ANY, s, steps);
    && u.t == t && u.jobs == jobs && u.now == s.now && id in u.handlers && u.handlers[id].pc == pc
  }

  /** The machine has a run from `s` to these tables and jobs, with the handler of `id` at `pc`. */
  ghost predicate Reaches(cfg: Config, s: State, id: DocId, t: Tables, jobs: set<DocId>, pc: HandlerPc) {
    exists steps :: Leads(cfg, s, steps, id, t, jobs, pc)
  }

  lemma {:induction false} Arrived(cfg: Config, s: State, id: DocId)
    requires id in s.handlers
    ensures Reaches(cfg, s, id, s.t, s.jobs, s.handlers[id].pc)
  {
    assert Leads(cfg, s, [], id, s.t, s.jobs, s.handlers[id].pc);
  }

  lemma {:induction false} StepThenReaches(cfg: Config, s: State, step: Step, id: DocId, t: Tables, jobs: set<DocId>, pc: HandlerPc)
    requires Enabled(ANY, s, step) && !step.Elapse? && Reaches(cfg, Apply(cfg, ANY, s, step), id, t, jobs, pc)
    ensures Reaches(cfg, s, id, t, jobs, pc)
  {
    var u := Apply(cfg, ANY, s, step);
    var steps :| Leads(cfg, u, steps, id, t, jobs, pc);
    OneStep(cfg, ANY, s, step);
    Compose(cfg, ANY, s, [step], steps);
    assert Leads(cfg, s, [step] + steps, id, t, jobs, pc);
  }

  lemma {:induction false} LastStep(cfg: Config, s: State, step: Step, id: DocId)
    requires Enabled(ANY, s, step) && !step.Elapse? && id in Apply(cfg, ANY, s, step).handlers
    ensures var u := Apply(cfg, ANY, s, step); Reaches(cfg, s, id, u.t, u.jobs, u.handlers[id].pc)
  {
    var u := Apply(cfg, ANY, s, step);
    Arrived(cfg, u, id);
    StepThenReaches(cfg, s, step, id, u.t, u.jobs, u.handlers[id].pc);
  }

  // ----- the run of the pipeline -----

  /** What each await of its run makes of a request: it answers only when the run is over, with a failure exactly when the
    * run raised, and else from the row. */
  lemma {:induction false} RequestMovesOn(cfg: Config, env: Env, s: State, id: DocId, c: Choice)
    requires Enabled(env, s, RunInline(id, c))
    ensures var pc, next := s.handlers[id].pc.pc, Apply(cfg, env, s, RunInline(id, c)).handlers[id].pc;
      match c
      case DoRead =>
        next == if id in s.t.documents && !s.t.documents[id].status.Terminal() then Inline(Read(s.t.documents[id])) else Answering
      case DoMark => next == Inline(Working(pc.doc))
      case DoStages(stages) =>
        if stages.ProviderTransient? then next == Answered(ProcessingFailed)
        else next.Inline? && next.pc.Finishing? && next.pc.doc == pc.doc && next.pc.outcome.WellFormed()
      case DoFinish(fault, text) =>
        next == if fault.Fine? then (if pc.reraise then Answered(ProcessingFailed) else Answering)
                else if pc.guarded then Inline(Finishing(pc.doc, Outcome(Failed, None, None, Some(ErrorInfo("INTERNAL", text))), false, true))
                else Answered(ProcessingFailed)
  {
    if c.DoStages? {
      OutcomesAreWellFormed(cfg, s.handlers[id].pc.pc.doc, c.stages);
    }
  }

  lemma {:induction false} FinishReaches(cfg: Config, s: State, id: DocId, fault: Fault, text: string)
    requires id in s.handlers && s.handlers[id].pc.Inline? && s.handlers[id].pc.pc.Finishing?
    ensures var pc := s.handlers[id].pc.pc;
      var t := if fault.RollsBack? then s.t else FinishTables(cfg, s.t, id, pc.doc, pc.outcome, s.now);
      Reaches(cfg, s, id, t, s.jobs, AfterRun(AfterFinish(pc, fault, text)))
  {
    LastStep(cfg, s, RunInline(id, DoFinish(fault, text)), id);
  }

  lemma {:induction false} ConcludeReaches(cfg: Config, s: State, id: DocId, first: Fault, second: Fault, text: string)
    requires id in s.handlers && s.handlers[id].pc.Inline? && s.handlers[id].pc.pc.Finishing?
    ensures var (t, ending) := ConcludeAlone(cfg, s.t, id, s.handlers[id].pc.pc, first, second, text, s.now);
      Reaches(cfg, s, id, t, s.jobs, AfterRun(Ended(ending)))
  {
    var pc := s.handlers[id].pc.pc;
    var next := AfterFinish(pc, first, text);
    if next.Ended? {
      FinishReaches(cfg, s, id, first, text);
    } else {
      var step := RunInline(id, DoFinish(first, text));
      var u := Apply(cfg, ANY, s, step);
      FinishReaches(cfg, u, id, second, "");
      var (t, ending) := ConcludeAlone(cfg, s.t, id, pc, first, second, text, s.now);
      StepThenReaches(cfg, s, step, id, t, s.jobs, AfterRun(Ended(ending)));
    }
  }

  lemma {:induction false} StagesReach(cfg: Config, s: State, id: DocId, stages: Stages, first: Fault, second: Fault, text: string)
    requires id in s.handlers && s.handlers[id].pc == Inline(Begin) && Processable(s.t, id)
    ensures var (t, ending) := ConcludeAlone(cfg, s.t.(documents := MarkedProcessing(s.t.documents, id, s.now)), id,
                                             AfterStages(cfg, s.t.documents[id], stages), first, second, text, s.now);
      Reaches(cfg, s, id, t, s.jobs, AfterRun(Ended(ending)))
  {
    var steps := [RunInline(id, DoRead), RunInline(id, DoMark), RunInline(id, DoStages(stages))];
    RequestRuns(cfg, ANY, s, id, stages);
    OutcomesAreWellFormed(cfg, s.t.documents[id], stages);
    var u := After(cfg, ANY, s, steps);
    var pc := AfterStages(cfg, s.t.documents[id], stages);
    if pc.Ended? {
      assert Leads(cfg, s, steps, id, u.t, s.jobs, AfterRun(pc));
    } else {
      ConcludeReaches(cfg, u, id, first, second, text);
      var (t, ending) := ConcludeAlone(cfg, u.t, id, pc, first, second, text, u.now);
      StepsThenReach(cfg, s, steps, id, t, s.jobs, AfterRun(Ended(ending)));
    }
  }

  lemma {:induction false} StepsThenReach(cfg: Config, s: State, steps: seq<Step>, id: DocId, t: Tables, jobs: set<DocId>, pc: HandlerPc)
    requires Possible(cfg, ANY, s, steps) && After(cfg, ANY, s, steps).now == s.now
    requires Reaches(cfg, After(cfg, ANY, s, steps), id, t, jobs, pc)
    ensures Reaches(cfg, s, id, t, jobs, pc)
  {
    var u := After(cfg, ANY, s, steps);
    var more :| Leads(cfg, u, more, id, t, jobs, pc);
    Compose(cfg, ANY, s, steps, more);
    assert Leads(cfg, s, steps + more, id, t, jobs, pc);
  }

  /** The machine, left alone, runs a pipeline as `RunAlone` says. */
  lemma {:induction false} RunReaches(cfg: Config, s: State, id: DocId, stages: Stages, first: Fault, second: Fault, text: string)
    requires id in s.handlers && s.handlers[id].pc == Inline(Begin)
    ensures var (t, ending) := RunAlone(cfg, s.t, id, stages, first, second, text, s.now);
      Reaches(cfg, s, id, t, s.jobs, AfterRun(Ended(ending)))
  {
    if Processable(s.t, id) {
      StagesReach(cfg, s, id, stages, first, second, text);
    } else {
      LastStep(cfg, s, RunInline(id, DoRead), id);
    }
  }

  // ----- a cancelled run -----

  lemma {:induction false} CancelHere(cfg: Config, s: State, id: DocId)
    requires id in s.handlers && s.handlers[id].pc.Inline? && !s.handlers[id].pc.pc.Ended?
    ensures Reaches(cfg, s, id, s.t, s.jobs, Cancelling)
  {
    LastStep(cfg, s, Cancel(id, false), id);
  }

  lemma {:induction false} CancelAtFinish(cfg: Config, s: State, id: DocId, landed: bool)
    requires id in s.handlers && s.handlers[id].pc.Inline? && s.handlers[id].pc.pc.Finishing?
    ensures var pc := s.handlers[id].pc.pc;
      Reaches(cfg, s, id, if landed then FinishTables(cfg, s.t, id, pc.doc, pc.outcome, s.now) else s.t, s.jobs, Cancelling)
  {
    LastStep(cfg, s, Cancel(id, landed), id);
  }

  lemma {:induction false} FinishUntilReaches(cfg: Config, s: State, id: DocId, first: Fault, text: string, stop: Stop)
    requires id in s.handlers && s.handlers[id].pc.Inline? && s.handlers[id].pc.pc.Finishing?
    requires stop.AtFinish? || (stop.AtFailure? && FailsOver(s.handlers[id].pc.pc, first))
    ensures Reaches(cfg, s, id, FinishUntil(cfg, s.t, id, s.handlers[id].pc.pc, first, text, stop, s.now), s.jobs, Cancelling)
  {
    if stop.AtFinish? {
      CancelAtFinish(cfg, s, id, stop.landed);
    } else {
      var step := RunInline(id, DoFinish(first, text));
      var u := Apply(cfg, ANY, s, step);
      CancelAtFinish(cfg, u, id, stop.landed);
      StepThenReaches(cfg, s, step, id, FinishUntil(cfg, s.t, id, s.handlers[id].pc.pc, first, text, stop, s.now), s.jobs,
                      Cancelling);
    }
  }

  lemma {:induction false} EarlyStopReaches(cfg: Config, s: State, id: DocId, marked: bool)
    requires id in s.handlers && s.handlers[id].pc == Inline(Begin) && Processable(s.t, id)
    ensures Reaches(cfg, s, id, if marked then s.t.(documents := MarkedProcessing(s.t.documents, id, s.now)) else s.t, s.jobs,
                    Cancelling)
  {
    var a := Apply(cfg, ANY, s, RunInline(id, DoRead));
    assert a.handlers[id].pc == Inline(Read(s.t.documents[id])) && a.t == s.t && a.now == s.now && a.jobs == s.jobs;
    if marked {
      var b := Apply(cfg, ANY, a, RunInline(id, DoMark));
      CancelHere(cfg, b, id);
      StepThenReaches(cfg, a, RunInline(id, DoMark), id, b.t, s.jobs, Cancelling);
      StepThenReaches(cfg, s, RunInline(id, DoRead), id, b.t, s.jobs, Cancelling);
    } else {
      CancelHere(cfg, a, id);
      StepThenReaches(cfg, s, RunInline(id, DoRead), id, s.t, s.jobs, Cancelling);
    }
  }

  lemma {:induction false} LateStopReaches(cfg: Config, s: State, id: DocId, stages: Stages, first: Fault, text: string, stop: Stop)
    requires id in s.handlers && s.handlers[id].pc == Inline(Begin) && StopsAt(cfg, s.t, id, stages, first, stop)
    requires stop.AtFinish? || stop.AtFailure?
    ensures Reaches(cfg, s, id, TablesAt(cfg, s.t, id, stages, first, text, stop, s.now), s.jobs, Cancelling)
  {
    var steps := [RunInline(id, DoRead), RunInline(id, DoMark), RunInline(id, DoStages(stages))];
    RequestRuns(cfg, ANY, s, id, stages);
    var u := After(cfg, ANY, s, steps);
    FinishUntilReaches(cfg, u, id, first, text, stop);
    StepsThenReach(cfg, s, steps, id, TablesAt(cfg, s.t, id, stages, first, text, stop, s.now), s.jobs, Cancelling);
  }

  /** The machine can cancel a run wherever the method can. */
  lemma {:induction false} StopReaches(cfg: Config, s: State, id: DocId, stages: Stages, first: Fault, text: string, stop: Stop)
    requires id in s.handlers && s.handlers[id].pc == Inline(Begin) && StopsAt(cfg, s.t, id, stages, first, stop)
    ensures Reaches(cfg, s, id, TablesAt(cfg, s.t, id, stages, first, text, stop, s.now), s.jobs, Cancelling)
  {
    match stop
    case AtRead => CancelHere(cfg, s, id);
    case AtMark(landed) => EarlyStopReaches(cfg, s, id, landed);
    case AtStages => EarlyStopReaches(cfg, s, id, true);
    case AtFinish(_) => LateStopReaches(cfg, s, id, stages, first, text, stop);
    case AtFailure(_) => LateStopReaches(cfg, s, id, stages, first, text, stop);
  }

  lemma {:induction false} MarkReaches(cfg: Config, s: State, id: DocId, mark: Fault)
    requires id in s.handlers && s.handlers[id].pc.Cancelling?
    ensures Reaches(cfg, s, id, CancelTables(cfg, s.t, id, mark, s.now), s.jobs, Answered(Cancelled))
  {
    var u := Apply(cfg, ANY, s, ReadCancelled(id));
    if id in s.t.documents {
      LastStep(cfg, u, FinishCancelled(id, mark), id);
      StepThenReaches(cfg, s, ReadCancelled(id), id, CancelTables(cfg, s.t, id, mark, s.now), s.jobs, Answered(Cancelled));
    } else {
      LastStep(cfg, s, ReadCancelled(id), id);
    }
  }

  /** Where the handler stands when its run has ended or been cancelled. */
  function AfterUntil(ending: Option<Ending>): HandlerPc {
    match ending
    case None => Cancelling
    case Some(e) => AfterRun(Ended(e))
  }

  lemma {:induction false} UntilReaches(cfg: Config, s: State, id: DocId, f: Fate)
    requires id in s.handlers && s.handlers[id].pc == Inline(Begin)
    ensures var (t, ending) := RunUntil(cfg, s.t, id, f.stages, f.first, f.second, f.text, f.stop, s.now);
      Reaches(cfg, s, id, t, s.jobs, AfterUntil(ending))
  {
    if f.stop.Some? && StopsAt(cfg, s.t, id, f.stages, f.first, f.stop.value) {
      StopReaches(cfg, s, id, f.stages, f.first, f.text, f.stop.value);
    } else {
      RunReaches(cfg, s, id, f.stages, f.first, f.second, f.text);
    }
  }

  /** A request on its own, once its row is in. */
  lemma {:induction false} AnswerReached(cfg: Config, s: State, id: DocId, run: (Tables, Option<Ending>), mark: Fault)
    requires Reaches(cfg, s, id, run.0, s.jobs, AfterUntil(run.1))
    ensures var (t, a) := AnswerAlone(cfg, id, run, mark, s.now); Reaches(cfg, s, id, t, s.jobs, Answered(a))
  {
    var (t, a) := AnswerAlone(cfg, id, run, mark, s.now);
    if !AfterUntil(run.1).Answered? {
      var steps :| Leads(cfg, s, steps, id, run.0, s.jobs, AfterUntil(run.1));
      var u := After(cfg, ANY, s, steps);
      if run.1.None? {
        MarkReaches(cfg, u, id, mark);
      } else {
        LastStep(cfg, u, Respond(id), id);
      }
      StepsThenReach(cfg, s, steps, id, t, s.jobs, Answered(a));
    }
  }

  // ----- whole requests -----

  lemma {:induction false} ArrivesAndInserts(cfg: Config, s: State, id: DocId, rpc: Rpc, sub: Submission) returns (u: State)
    requires id !in s.handlers
    ensures Possible(cfg, ANY, s, [Arrive(id, rpc, sub), Insert(id)])
    ensures u == After(cfg, ANY, s, [Arrive(id, rpc, sub), Insert(id)])
    ensures id in u.handlers && u.now == s.now && u.jobs == s.jobs
    ensures u.handlers[id].rpc == rpc && u.handlers[id].submission == sub
    ensures Insertable(s.t.documents, id, sub.key) ==>
      u.t == WithQueued(s.t, id, sub, s.now) && u.handlers[id].pc == if rpc.SubmitRpc? then Inserted else Inline(Begin)
    ensures !Insertable(s.t.documents, id, sub.key) ==> u.t == s.t && u.handlers[id].pc == Conflict
  {
    OneStep(cfg, ANY, s, Arrive(id, rpc, sub));
    Then(cfg, ANY, s, [Arrive(id, rpc, sub)], Insert(id));
    assert [Arrive(id, rpc, sub)] + [Insert(id)] == [Arrive(id, rpc, sub), Insert(id)];
    u := After(cfg, ANY, s, [Arrive(id, rpc, sub), Insert(id)]);
  }

  lemma {:induction false} ConflictReaches(cfg: Config, s: State, id: DocId)
    requires id in s.handlers && s.handlers[id].pc.Conflict?
    ensures Reaches(cfg, s, id, s.t, s.jobs, Answered(Repeated(s.t, s.handlers[id].rpc, s.handlers[id].submission)))
  {
    LastStep(cfg, s, Lookup(id), id);
  }

  /** ProcessDocument on its own, whatever befalls it, is one of the machine's runs: the method and the machine agree. */
  lemma {:induction false} ProcessIsARun(cfg: Config, s: State, id: DocId, sub: Submission, f: Fate)
    requires id !in s.handlers
    ensures var (t, a) := ProcessAlone(cfg, s.t, id, sub, f, s.now); Reaches(cfg, s, id, t, s.jobs, Answered(a))
  {
    var u := ArrivesAndInserts(cfg, s, id, ProcessRpc, sub);
    var (t, a) := ProcessAlone(cfg, s.t, id, sub, f, s.now);
    if Insertable(s.t.documents, id, sub.key) {
      UntilReaches(cfg, u, id, f);
      AnswerReached(cfg, u, id, RunUntil(cfg, u.t, id, f.stages, f.first, f.second, f.text, f.stop, u.now), f.mark);
    } else {
      ConflictReaches(cfg, u, id);
    }
    StepsThenReach(cfg, s, [Arrive(id, ProcessRpc, sub), Insert(id)], id, t, s.jobs, Answered(a));
  }

  lemma {:induction false} EnqueueReaches(cfg: Config, s: State, id: DocId, enqueuing: Enqueuing, deleted: bool)
    requires id in s.handlers && s.handlers[id].pc == Inserted
    ensures
      var jobs := if enqueuing.Refused? then s.jobs else s.jobs + {id};
      if enqueuing.Enqueued? then Reaches(cfg, s, id, s.t, jobs, Answered(Accepted))
      else Reaches(cfg, s, id, if deleted then s.t.(documents := s.t.documents - {id}) else s.t, jobs, Answered(QueueUnavailable))
  {
    if enqueuing.Enqueued? {
      LastStep(cfg, s, Enqueue(id, false, true), id);
    } else {
      var step := Enqueue(id, true, enqueuing.LostAnswer?);
      var u := Apply(cfg, ANY, s, step);
      LastStep(cfg, u, Rollback(id, deleted), id);
      StepThenReaches(cfg, s, step, id, if deleted then s.t.(documents := s.t.documents - {id}) else s.t, u.jobs,
                      Answered(QueueUnavailable));
    }
  }

  /** SubmitDocument on its own is one of the machine's runs. */
  lemma {:induction false} SubmitIsARun(cfg: Config, s: State, id: DocId, sub: Submission, enqueuing: Enqueuing, deleted: bool)
    requires id !in s.handlers
    ensures var (t, enqueued, a) := SubmitAlone(s.t, id, sub, enqueuing, deleted, s.now);
      Reaches(cfg, s, id, t, if enqueued then s.jobs + {id} else s.jobs, Answered(a))
  {
    var u := ArrivesAndInserts(cfg, s, id, SubmitRpc, sub);
    var (t, enqueued, a) := SubmitAlone(s.t, id, sub, enqueuing, deleted, s.now);
    if Insertable(s.t.documents, id, sub.key) {
      assert WithQueued(s.t, id, sub, s.now).documents - {id} == s.t.documents;
      EnqueueReaches(cfg, u, id, enqueuing, deleted);
    } else {
      ConflictReaches(cfg, u, id);
    }
    StepsThenReach(cfg, s, [Arrive(id, SubmitRpc, sub), Insert(id)], id, t, if enqueued then s.jobs + {id} else s.jobs,
                   Answered(a));
  }
}
