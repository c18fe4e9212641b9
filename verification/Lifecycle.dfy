/** The service as a step machine: request handlers, workers, the retention sweep and the outbox publishers,
  * interleaved at their awaits over the two tables, the job queue and the producer's log.
  *
  * Each SQL statement or transaction is one step. Any actor may die at any point.
  */
module Lifecycle {
  import opened Prelude
  import opened Statuses
  import opened Documents
  import opened Envelopes
  import opened Tables
  import opened Stores
  import opened Pipeline

  // ----- actors -----

  datatype Rpc = SubmitRpc | ProcessRpc

  datatype Answer =
    | Accepted
    | AlreadyExists(existing: Option<DocId>)
    | Replayed(replayed: DocId, row: Row)
    | QueueUnavailable
    | Vanished
    | ProcessingFailed
    | Responded(row: Row)
    | Cancelled

  /** Where a request handler stands. */
  datatype HandlerPc =
    | Arrived               // validated, its document id drawn; about to insert
    | Conflict              // the insert was refused; about to look up the key
    | Inserted              // SubmitDocument: about to enqueue
    | EnqueueFailed         // about to delete the row again
    | Inline(pc: Pc)        // ProcessDocument: running the pipeline in the request
    | Answering             // the run returned; about to read the row
    | Cancelling            // the caller gave up; about to read the row
    | CancelRead(doc: Row)  // about to mark it failed
    | Answered(answer: Answer)
    | Crashed

  /** A handler is known by the document id it drew; `inserted` records whether its insert succeeded. */
  datatype Handler = Handler(rpc: Rpc, submission: Submission, inserted: bool, pc: HandlerPc)

  /** A queue worker's run; `wrote` counts its committed finishes. */
  datatype Worker = Worker(docId: DocId, pc: Pc, wrote: nat)

  /** A claimed row, with the number of the claim. */
  datatype Lease = Lease(event: nat, attempt: nat)

  /** A poll of the outbox: its claimed rows, the one it is at, and whether that one has been handed over. */
  datatype Poll = Poll(leases: seq<Lease>, next: nat, handed: bool)

  datatype Claim = Claim(lease: Lease, at: Time)

  /** `jobs` holds every document ever enqueued, since a job may run again. `log` is what the producer was handed,
    * `claims` every claim ever made, `purged` the rows purged since they were last finished. */
  datatype State = State(t: Tables, now: Time, jobs: set<DocId>, handlers: map<DocId, Handler>,
                         workers: map<nat, Worker>, sweeps: map<nat, seq<DocId>>, polls: map<nat, Poll>,
                         log: seq<Lease>, claims: seq<Claim>, purged: set<DocId>)

  const INITIAL := State(Tables(map[], []), 0, {}, map[], map[], map[], map[], [], [], {})

  /** Assumptions on the environment; the machine is otherwise free. */
  datatype Env = Env(
    oneRunner: bool,      // at most one active worker per document
    exactCommits: bool,   // a finish raises only if it rolled back, and no cancellation lands after a commit
    exactEnqueue: bool,   // an enqueue that raises enqueued nothing
    deletesSucceed: bool) // the delete of a rolled-back submit succeeds

  const ANY := Env(false, false, false, false)

  // ----- steps -----

  /** One await of a pipeline run. */
  datatype Choice = DoRead | DoMark | DoStages(stages: Stages) | DoFinish(fault: Fault, text: string)

  datatype Step =
    | Elapse(d: nat)
    | Arrive(id: DocId, rpc: Rpc, submission: Submission)
    | Insert(id: DocId)
    | Lookup(id: DocId)
    | Enqueue(id: DocId, raises: bool, landed: bool)
    | Rollback(id: DocId, deleted: bool)
    | RunInline(id: DocId, choice: Choice)
    | Respond(id: DocId)
    | Cancel(id: DocId, committed: bool)
    | ReadCancelled(id: DocId)
    | FinishCancelled(id: DocId, fault: Fault)
    | Crash(id: DocId, committed: bool)
    | StartWorker(worker: nat, id: DocId)
    | RunWorker(worker: nat, choice: Choice)
    | KillWorker(worker: nat, committed: bool)
    | ListExpired(sweep: nat, cutoff: Time, ids: seq<DocId>)
    | Purge(sweep: nat)
    | StartPoll(poll: nat, name: string, batch: nat, ids: seq<nat>)
    | Produce(poll: nat)
    | Mark(poll: nat, landed: bool, raises: bool)
    | EndPoll(poll: nat)

  predicate Fits(pc: Pc, c: Choice) {
    match c
    case DoRead => pc.Begin?
    case DoMark => pc.Read?
    case DoStages(_) => pc.Working?
    case DoFinish(_, _) => pc.Finishing?
  }

  predicate Exact(env: Env, c: Choice) {
    env.exactCommits && c.DoFinish? ==> !c.fault.CommitsThenRaises?
  }

  predicate ActiveWorker(s: State, id: DocId) {
    exists w :: w in s.workers && s.workers[w].docId == id && !s.workers[w].pc.Ended?
  }

  /** A commit that lands although its caller never learns of it. */
  predicate MayCommit(pc: HandlerPc) {
    (pc.Inline? && pc.pc.Finishing?) || pc.CancelRead?
  }

  ghost predicate Enabled(env: Env, s: State, step: Step) {
    match step
    case Elapse(_) => true
    case Arrive(id, _, _) => id !in s.handlers
    case Insert(id) => id in s.handlers && s.handlers[id].pc.Arrived?
    case Lookup(id) => id in s.handlers && s.handlers[id].pc.Conflict?
    case Enqueue(id, raises, landed) =>
      && id in s.handlers && s.handlers[id].pc.Inserted?
      && (!raises ==> landed) && (env.exactEnqueue && raises ==> !landed)
    case Rollback(id, deleted) =>
      id in s.handlers && s.handlers[id].pc.EnqueueFailed? && (env.deletesSucceed ==> deleted)
    case RunInline(id, c) =>
      id in s.handlers && s.handlers[id].pc.Inline? && Fits(s.handlers[id].pc.pc, c) && Exact(env, c)
    case Respond(id) => id in s.handlers && s.handlers[id].pc.Answering?
    case Cancel(id, committed) =>
      && id in s.handlers && s.handlers[id].pc.Inline? && !s.handlers[id].pc.pc.Ended?
      && (committed ==> s.handlers[id].pc.pc.Finishing?) && (env.exactCommits ==> !committed)
    case ReadCancelled(id) => id in s.handlers && s.handlers[id].pc.Cancelling?
    case FinishCancelled(id, fault) =>
      id in s.handlers && s.handlers[id].pc.CancelRead? && (env.exactCommits ==> !fault.CommitsThenRaises?)
    case Crash(id, committed) =>
      && id in s.handlers && !s.handlers[id].pc.Answered? && !s.handlers[id].pc.Crashed?
      && (committed ==> MayCommit(s.handlers[id].pc))
    case StartWorker(w, id) => w !in s.workers && id in s.jobs && (env.oneRunner ==> !ActiveWorker(s, id))
    case RunWorker(w, c) => w in s.workers && Fits(s.workers[w].pc, c) && Exact(env, c)
    case KillWorker(w, committed) =>
      w in s.workers && !s.workers[w].pc.Ended? && (committed ==> s.workers[w].pc.Finishing?)
    case ListExpired(w, cutoff, ids) => w !in s.sweeps && IsSweep(s.t.documents, cutoff, ids)
    case Purge(w) => w in s.sweeps
    case StartPoll(p, _, batch, ids) => p !in s.polls && IsClaim(s.t.outbox, s.now, batch, ids)
    case Produce(p) => p in s.polls && s.polls[p].next < |s.polls[p].leases| && !s.polls[p].handed
    case Mark(p, landed, raises) => p in s.polls && s.polls[p].handed && (!raises ==> landed)
    case EndPoll(p) => p in s.polls
  }

  // ----- effects -----

  /** The tables and program counter after one await of a run. */
  ghost function RunStep(cfg: Config, t: Tables, id: DocId, pc: Pc, c: Choice, now: Time): (Tables, Pc)
    requires Fits(pc, c)
  {
    match c
    case DoRead => (t, AfterRead(t, id))
    case DoMark => (t.(documents := MarkedProcessing(t.documents, id, now)), Working(pc.doc))
    case DoStages(stages) => (t, AfterStages(cfg, pc.doc, stages))
    case DoFinish(fault, text) =>
      (if fault.RollsBack? then t else FinishTables(cfg, t, id, pc.doc, pc.outcome, now), AfterFinish(pc, fault, text))
  }

  predicate Writes(c: Choice) {
    c.DoFinish? && !c.fault.RollsBack?
  }

  /** What the handler does once its inline run stands at `pc`. */
  function AfterRun(pc: Pc): HandlerPc {
    match pc
    case Ended(Skipped) => Answering
    case Ended(Finished) => Answering
    case Ended(_) => Answered(ProcessingFailed)
    case _ => Inline(pc)
  }

  const CANCELLED := Failure("INTERNAL", "synchronous processing cancelled before completion")

  /** The tables after the finish a handler or worker dies in, had it committed. */
  function CommitOf(cfg: Config, t: Tables, id: DocId, pc: HandlerPc, now: Time): Tables {
    match pc
    case Inline(Finishing(doc, o, _, _)) => FinishTables(cfg, t, id, doc, o, now)
    case CancelRead(doc) => FinishTables(cfg, t, id, doc, CANCELLED, now)
    case _ => t
  }

  ghost function Holder(documents: map<DocId, Row>, key: nat): (r: Option<DocId>)
    ensures r.Some? ==> r.value in documents && documents[r.value].submission.key == key
    ensures r.None? ==> forall d :: d in documents ==> documents[d].submission.key != key
  {
    if exists d :: d in documents && documents[d].submission.key == key then
      var d :| d in documents && documents[d].submission.key == key;
      Some(d)
    else None
  }

  /** The answer to a repeated key. */
  ghost function RepeatAnswer(t: Tables, h: Handler): Answer {
    var holder := Holder(t.documents, h.submission.key);
    match h.rpc
    case SubmitRpc => AlreadyExists(holder)
    case ProcessRpc => if holder.Some? then Replayed(holder.value, t.documents[holder.value]) else Vanished
  }

  function At(s: State, id: DocId, pc: HandlerPc): State
    requires id in s.handlers
  {
    s.(handlers := s.handlers[id := s.handlers[id].(pc := pc)])
  }

  /** The state after a finish of `id`: its row, if any, has its result again. */
  function Concluding(s: State, id: DocId, t: Tables): State {
    s.(t := t, purged := if |t.outbox| > |s.t.outbox| then s.purged - {id} else s.purged)
  }

  function LeasesOf(outbox: seq<Event>, ids: seq<nat>): (r: seq<Lease>)
    ensures |r| == |ids|
    ensures forall i :: 0 <= i < |ids| ==> r[i] == Lease(ids[i], if ids[i] < |outbox| then outbox[ids[i]].attemptCount + 1 else 0)
  {
    seq(|ids|, i requires 0 <= i < |ids| =>
      Lease(ids[i], if ids[i] < |outbox| then outbox[ids[i]].attemptCount + 1 else 0))
  }

  function ClaimsOf(leases: seq<Lease>, now: Time): (r: seq<Claim>)
    ensures |r| == |leases| && forall i :: 0 <= i < |r| ==> r[i] == Claim(leases[i], now)
  {
    seq(|leases|, i requires 0 <= i < |leases| => Claim(leases[i], now))
  }

  ghost function Apply(cfg: Config, env: Env, s: State, step: Step): State
    requires Enabled(env, s, step)
  {
    match step
    case Elapse(d) => s.(now := s.now + d)
    case Arrive(id, rpc, sub) => s.(handlers := s.handlers[id := Handler(rpc, sub, false, Arrived)])
    case Insert(id) =>
      var h := s.handlers[id];
      if Insertable(s.t.documents, id, h.submission.key)
      then s.(t := s.t.(documents := s.t.documents[id := QueuedRow(h.submission, s.now)]),
              handlers := s.handlers[id := h.(inserted := true, pc := if h.rpc.SubmitRpc? then Inserted else Inline(Begin))])
      else At(s, id, Conflict)
    case Lookup(id) => At(s, id, Answered(RepeatAnswer(s.t, s.handlers[id])))
    case Enqueue(id, raises, landed) =>
      At(s, id, if raises then EnqueueFailed else Answered(Accepted)).(jobs := if landed then s.jobs + {id} else s.jobs)
    case Rollback(id, deleted) =>
      At(s, id, Answered(QueueUnavailable)).(t := if deleted then s.t.(documents := s.t.documents - {id}) else s.t)
    case RunInline(id, c) =>
      var (t, pc) := RunStep(cfg, s.t, id, s.handlers[id].pc.pc, c, s.now);
      At(Concluding(s, id, t), id, AfterRun(pc))
    case Respond(id) =>
      At(s, id, Answered(if id in s.t.documents then Responded(s.t.documents[id]) else Vanished))
    case Cancel(id, committed) =>
      At(if committed then Concluding(s, id, CommitOf(cfg, s.t, id, s.handlers[id].pc, s.now)) else s, id, Cancelling)
    case ReadCancelled(id) =>
      At(s, id, if id in s.t.documents then CancelRead(s.t.documents[id]) else Answered(Cancelled))
    case FinishCancelled(id, fault) =>
      At(if fault.RollsBack? then s else Concluding(s, id, CommitOf(cfg, s.t, id, s.handlers[id].pc, s.now)), id,
         Answered(Cancelled))
    case Crash(id, committed) =>
      At(if committed then Concluding(s, id, CommitOf(cfg, s.t, id, s.handlers[id].pc, s.now)) else s, id, Crashed)
    case StartWorker(w, id) => s.(workers := s.workers[w := Worker(id, Begin, 0)])
    case RunWorker(w, c) =>
      var r := s.workers[w];
      var (t, pc) := RunStep(cfg, s.t, r.docId, r.pc, c, s.now);
      Concluding(s, r.docId, t).(workers := s.workers[w := Worker(r.docId, pc, if Writes(c) then r.wrote + 1 else r.wrote)])
    case KillWorker(w, committed) =>
      var r := s.workers[w];
      var t := if committed then FinishTables(cfg, s.t, r.docId, r.pc.doc, r.pc.outcome, s.now) else s.t;
      Concluding(s, r.docId, t).(workers :=
        s.workers[w := Worker(r.docId, Ended(RaisedError), if committed then r.wrote + 1 else r.wrote)])
    case ListExpired(w, _, ids) => s.(sweeps := s.sweeps[w := ids])
    case Purge(w) =>
      s.(t := s.t.(documents := Purged(s.t.documents, s.sweeps[w], s.now)),
         purged := s.purged + (set d | d in s.sweeps[w]), sweeps := s.sweeps - {w})
    case StartPoll(p, name, _, ids) =>
      var leases := LeasesOf(s.t.outbox, ids);
      s.(t := s.t.(outbox := Claimed(s.t.outbox, ids, name, s.now)),
         polls := s.polls[p := Poll(leases, 0, false)], claims := s.claims + ClaimsOf(leases, s.now))
    case Produce(p) =>
      var poll := s.polls[p];
      s.(log := s.log + [poll.leases[poll.next]], polls := s.polls[p := poll.(handed := true)])
    case Mark(p, landed, raises) =>
      var poll := s.polls[p];
      var t := if landed && poll.next < |poll.leases|
               then s.t.(outbox := MarkedPublished(s.t.outbox, poll.leases[poll.next].event, s.now)) else s.t;
      s.(t := t, polls := if raises then s.polls - {p} else s.polls[p := poll.(next := poll.next + 1, handed := false)])
    case EndPoll(p) => s.(polls := s.polls - {p})
  }

  // ----- runs -----

  /** A sequence of steps the machine can take from `s`. */
  ghost predicate Possible(cfg: Config, env: Env, s: State, steps: seq<Step>)
    decreases |steps|
  {
    steps != [] ==> Enabled(env, s, steps[0]) && Possible(cfg, env, Apply(cfg, env, s, steps[0]), steps[1..])
  }

  /** The state it leads to. */
  ghost function After(cfg: Config, env: Env, s: State, steps: seq<Step>): State
    requires Possible(cfg, env, s, steps)
    decreases |steps|
  {
    if steps == [] then s else After(cfg, env, Apply(cfg, env, s, steps[0]), steps[1..])
  }
}
