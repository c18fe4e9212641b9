/** What the retention sweep comes to over whole runs of the service. */
module Purging {
  import opened Prelude
  import opened Statuses
  import opened Documents
  import opened Envelopes
  import opened Tables
  import opened Stores
  import opened Pipeline
  import opened Lifecycle
  import opened Safety
  import opened Runs
  import opened Events
  import opened Single
  import opened Requests
  import opened Recovery
  import opened Retention

  /** Finished rows stay finished: one runner per document, exact commits, and no enqueue that raises although it landed. */
  ghost predicate Orderly(env: Env) {
    Serialized(env) && env.exactEnqueue
  }

  /** Only documents that were enqueued or are processed in a request have events. */
  ghost predicate Sourced(s: State) {
    forall d: DocId :: EventsOf(s.t.outbox, d) != [] ==> d in s.jobs || (d in s.handlers && s.handlers[d].rpc.ProcessRpc?)
  }

  predicate Dated(s: State) {
    forall d :: d in s.t.documents && s.t.documents[d].processedAt.Some? ==> s.t.documents[d].processedAt.value <= s.now
  }

  ghost predicate Settling(env: Env, s: State) {
    Inv(s) && One(s) && AllServed(env, s) && Sourced(s) && Dated(s)
  }

  // ----- every step -----

  /** Which document a step may write an event for. */
  lemma StepIsOnlyFor(cfg: Config, env: Env, s: State, step: Step) returns (id: DocId)
    requires Inv(s) && Enabled(env, s, step)
    ensures OnlyFor(s.t.outbox, Apply(cfg, env, s, step).t.outbox, id)
    ensures
      || EventsOf(Apply(cfg, env, s, step).t.outbox, id) == EventsOf(s.t.outbox, id)
      || id in s.jobs || (id in s.handlers && s.handlers[id].rpc.ProcessRpc?)
  {
    if step.RunInline? {
      id := step.id;
      assert HandlerOk(s.handlers[id]);
      RunStepIsOnlyFor(cfg, s.t, id, s.handlers[id].pc.pc, step.choice, s.now);
    } else if OfHandler(step) {
      id := step.id;
      HandlersWriteNothing(cfg, env, s, step);
    } else if step.Cancel? || step.FinishCancelled? || step.Crash? {
      id := step.id;
      LeavingIsOnlyFor(cfg, env, s, step);
    } else if step.RunWorker? || step.KillWorker? {
      id := s.workers[step.worker].docId;
      WorkersWriteOnlyFor(cfg, env, s, step);
      assert id in s.jobs;
    } else {
      id := 0;
      QuietKeepsEvents(cfg, env, s, step);
    }
  }

  lemma LeavingIsOnlyFor(cfg: Config, env: Env, s: State, step: Step)
    requires Inv(s) && Enabled(env, s, step) && (step.Cancel? || step.FinishCancelled? || step.Crash?)
    ensures OnlyFor(s.t.outbox, Apply(cfg, env, s, step).t.outbox, step.id)
    ensures
      || EventsOf(Apply(cfg, env, s, step).t.outbox, step.id) == EventsOf(s.t.outbox, step.id)
      || s.handlers[step.id].rpc.ProcessRpc?
  {
    assert HandlerOk(s.handlers[step.id]);
    if MayCommit(s.handlers[step.id].pc) {
      CommitIsOnlyFor(cfg, s.t, step.id, s.handlers[step.id].pc, s.now);
    }
  }

  lemma JobsAndRpcsStay(cfg: Config, env: Env, s: State, step: Step)
    requires Enabled(env, s, step)
    ensures var u := Apply(cfg, env, s, step);
      s.jobs <= u.jobs && forall d :: d in s.handlers ==> d in u.handlers && u.handlers[d].rpc == s.handlers[d].rpc
  {
  }

  lemma StepKeepsSourced(cfg: Config, env: Env, s: State, step: Step)
    requires Inv(s) && Sourced(s) && Enabled(env, s, step)
    ensures Sourced(Apply(cfg, env, s, step))
  {
    var u := Apply(cfg, env, s, step);
    JobsAndRpcsStay(cfg, env, s, step);
    var id := StepIsOnlyFor(cfg, env, s, step);
    forall d: DocId | EventsOf(u.t.outbox, d) != []
      ensures d in u.jobs || (d in u.handlers && u.handlers[d].rpc.ProcessRpc?)
    {
      if d != id { assert EventsOf(u.t.outbox, d) == EventsOf(s.t.outbox, d); }
    }
  }

  /** A row's finishing time is the one it had, or now. */
  ghost predicate DatesFrom(a: map<DocId, Row>, b: map<DocId, Row>, now: Time) {
    forall e :: e in b && b[e].processedAt.Some? ==>
      (e in a && b[e].processedAt == a[e].processedAt) || b[e].processedAt == Some(now)
  }

  lemma RunningDates(cfg: Config, env: Env, s: State, step: Step)
    requires Enabled(env, s, step) && (step.RunInline? || step.RunWorker? || step.KillWorker?)
    ensures var u := Apply(cfg, env, s, step); DatesFrom(s.t.documents, u.t.documents, s.now) && s.now <= u.now
  {
  }

  lemma StepDates(cfg: Config, env: Env, s: State, step: Step)
    requires Enabled(env, s, step)
    ensures var u := Apply(cfg, env, s, step); DatesFrom(s.t.documents, u.t.documents, s.now) && s.now <= u.now
  {
    if step.RunInline? || step.RunWorker? || step.KillWorker? {
      RunningDates(cfg, env, s, step);
    }
  }

  lemma StepKeepsSettling(cfg: Config, env: Env, s: State, step: Step)
    requires Orderly(env) && Settling(env, s) && Enabled(env, s, step)
    ensures Settling(env, Apply(cfg, env, s, step))
  {
    StepKeeps(cfg, env, s, step);
    StepKeepsOne(cfg, env, s, step);
    StepKeepsServed(cfg, env, s, step);
    StepKeepsSourced(cfg, env, s, step);
    StepDates(cfg, env, s, step);
    DatesStay(s, Apply(cfg, env, s, step));
  }

  lemma DatesStay(s: State, u: State)
    requires Dated(s) && DatesFrom(s.t.documents, u.t.documents, s.now) && s.now <= u.now
    ensures Dated(u)
  {
  }

  // ----- what can happen to a row past the queue -----

  /** It stays, or is purged, or gets an event, or is rolled back. */
  ghost predicate Changes(s: State, u: State, step: Step, d: DocId)
    requires d in s.t.documents && (step.Purge? ==> step.sweep in s.sweeps)
  {
    || (d in u.t.documents && u.t.documents[d] == s.t.documents[d])
    || (step.Purge? && d in s.sweeps[step.sweep] && d in u.t.documents && u.t.documents[d] == PurgedRow(s.t.documents[d], s.now))
    || |EventsOf(u.t.outbox, d)| > |EventsOf(s.t.outbox, d)|
    || (step.Rollback? && step.id == d)
  }

  lemma RunStepChanges(cfg: Config, t: Tables, id: DocId, pc: Pc, c: Choice, now: Time, d: DocId)
    requires Fits(pc, c) && d in t.documents && t.documents[d].status != Queued
    ensures var u := RunStep(cfg, t, id, pc, c, now).0;
      (d in u.documents && u.documents[d] == t.documents[d]) || |EventsOf(u.outbox, d)| > |EventsOf(t.outbox, d)|
  {
    RunStepIsOnlyFor(cfg, t, id, pc, c, now);
  }

  lemma RunningChanges(cfg: Config, env: Env, s: State, step: Step, d: DocId)
    requires Enabled(env, s, step) && (step.RunInline? || step.RunWorker?)
    requires d in s.t.documents && s.t.documents[d].status != Queued
    ensures Changes(s, Apply(cfg, env, s, step), step, d)
  {
    if step.RunInline? {
      RunStepChanges(cfg, s.t, step.id, s.handlers[step.id].pc.pc, step.choice, s.now, d);
    } else {
      RunStepChanges(cfg, s.t, s.workers[step.worker].docId, s.workers[step.worker].pc, step.choice, s.now, d);
    }
  }

  lemma CommitChanges(cfg: Config, t: Tables, id: DocId, pc: HandlerPc, now: Time, d: DocId)
    requires MayCommit(pc) && d in t.documents
    ensures var u := CommitOf(cfg, t, id, pc, now);
      (d in u.documents && u.documents[d] == t.documents[d]) || |EventsOf(u.outbox, d)| > |EventsOf(t.outbox, d)|
  {
    CommitIsOnlyFor(cfg, t, id, pc, now);
  }

  lemma LeavingChanges(cfg: Config, env: Env, s: State, step: Step, d: DocId)
    requires Enabled(env, s, step) && (step.Cancel? || step.FinishCancelled? || step.Crash?) && d in s.t.documents
    ensures Changes(s, Apply(cfg, env, s, step), step, d)
  {
    if MayCommit(s.handlers[step.id].pc) {
      CommitChanges(cfg, s.t, step.id, s.handlers[step.id].pc, s.now, d);
    }
  }

  lemma KillChanges(cfg: Config, env: Env, s: State, step: Step, d: DocId)
    requires Enabled(env, s, step) && step.KillWorker? && d in s.t.documents && s.t.documents[d].status != Queued
    ensures Changes(s, Apply(cfg, env, s, step), step, d)
  {
    var r := s.workers[step.worker];
    if step.committed {
      FinishIsOnlyFor(cfg, s.t, r.docId, r.pc.doc, r.pc.outcome, s.now);
    }
  }

  lemma StepChanges(cfg: Config, env: Env, s: State, step: Step, d: DocId)
    requires Enabled(env, s, step) && d in s.t.documents && s.t.documents[d].status != Queued
    ensures Changes(s, Apply(cfg, env, s, step), step, d)
  {
    if step.RunInline? || step.RunWorker? { RunningChanges(cfg, env, s, step, d); }
    else if step.KillWorker? { KillChanges(cfg, env, s, step, d); }
    else if step.Cancel? || step.FinishCancelled? || step.Crash? { LeavingChanges(cfg, env, s, step, d); }
    else { OtherChanges(cfg, env, s, step, d); }
  }

  lemma OtherChanges(cfg: Config, env: Env, s: State, step: Step, d: DocId)
    requires Enabled(env, s, step) && d in s.t.documents
    requires !step.RunInline? && !step.RunWorker? && !step.KillWorker? && !step.Cancel? && !step.FinishCancelled? && !step.Crash?
    ensures Changes(s, Apply(cfg, env, s, step), step, d)
  {
  }

  /** In an orderly environment a finished row stays as it is, but for its purge. */
  lemma FinishedStays(cfg: Config, env: Env, s: State, step: Step, d: DocId)
    requires Orderly(env) && Settling(env, s) && Enabled(env, s, step)
    requires d in s.t.documents && s.t.documents[d].processedAt.Some?
    ensures var u := Apply(cfg, env, s, step);
      && d in u.t.documents
      && if step.Purge? && d in s.sweeps[step.sweep] then u.t.documents[d] == PurgedRow(s.t.documents[d], s.now)
         else u.t.documents[d] == s.t.documents[d]
  {
    assert RowOk(s.t.documents[d], EventsOf(s.t.outbox, d), d in s.purged);
    StepKeepsOne(cfg, env, s, step);
    assert |EventsOf(Apply(cfg, env, s, step).t.outbox, d)| <= 1;
    if step.Rollback? {
      NotRolledBack(env, s, step.id, d);
    }
    StepChanges(cfg, env, s, step, d);
    PurgeHits(cfg, env, s, step, d);
  }

  lemma PurgeHits(cfg: Config, env: Env, s: State, step: Step, d: DocId)
    requires Enabled(env, s, step) && d in s.t.documents
    ensures step.Purge? && d in s.sweeps[step.sweep] ==>
      d in Apply(cfg, env, s, step).t.documents
      && Apply(cfg, env, s, step).t.documents[d] == PurgedRow(s.t.documents[d], s.now)
  {
  }

  lemma NotRolledBack(env: Env, s: State, id: DocId, d: DocId)
    requires Orderly(env) && Settling(env, s) && id in s.handlers && s.handlers[id].pc.EnqueueFailed?
    requires d in s.t.documents && s.t.documents[d].processedAt.Some?
    ensures d != id
  {
    assert RowOk(s.t.documents[d], EventsOf(s.t.outbox, d), d in s.purged);
    assert Served(env, s, id) && HandlerOk(s.handlers[id]);
  }

  // ----- over runs -----

  lemma {:induction false} RunSettles(cfg: Config, env: Env, s: State, steps: seq<Step>)
    requires Orderly(env) && Settling(env, s) && Possible(cfg, env, s, steps)
    ensures Settling(env, After(cfg, env, s, steps))
    decreases |steps|
  {
    if steps != [] {
      StepKeepsSettling(cfg, env, s, steps[0]);
      RunSettles(cfg, env, Apply(cfg, env, s, steps[0]), steps[1..]);
    }
  }

  /** Rows finished before `d` stay just these: later ones finish later. */
  lemma OlderStays(cfg: Config, env: Env, s: State, step: Step, d: DocId)
    requires Orderly(env) && Settling(env, s) && Enabled(env, s, step)
    requires d in s.t.documents && s.t.documents[d].processedAt.Some?
    ensures var u := Apply(cfg, env, s, step);
      && d in u.t.documents && u.t.documents[d].processedAt == s.t.documents[d].processedAt
      && Older(u.t.documents, d) == Older(s.t.documents, d)
      && (s.t.documents[d].processedAt.value < s.now ==> NotYounger(u.t.documents, d) == NotYounger(s.t.documents, d))
  {
    var u := Apply(cfg, env, s, step);
    StepDates(cfg, env, s, step);
    FinishedStays(cfg, env, s, step, d);
    forall e | e in s.t.documents && s.t.documents[e].processedAt.Some?
      ensures e in u.t.documents && u.t.documents[e].processedAt == s.t.documents[e].processedAt
    {
      FinishedStays(cfg, env, s, step, e);
    }
    SameOlder(s, u, d);
  }

  lemma SameOlder(s: State, u: State, d: DocId)
    requires Dated(s) && DatesFrom(s.t.documents, u.t.documents, s.now)
    requires d in s.t.documents && s.t.documents[d].processedAt.Some?
    requires forall e :: e in s.t.documents && s.t.documents[e].processedAt.Some? ==>
      e in u.t.documents && u.t.documents[e].processedAt == s.t.documents[e].processedAt
    ensures Older(u.t.documents, d) == Older(s.t.documents, d)
    ensures s.t.documents[d].processedAt.value < s.now ==> NotYounger(u.t.documents, d) == NotYounger(s.t.documents, d)
  {
  }

  ghost predicate Starved(s: State, d: DocId) {
    && d in s.t.documents && s.t.documents[d].processedAt.Some? && |Older(s.t.documents, d)| >= SWEEP_LIMIT
    && forall w :: w in s.sweeps ==> d !in s.sweeps[w]
  }

  lemma StepKeepsStarved(cfg: Config, env: Env, s: State, step: Step, d: DocId)
    requires Orderly(env) && Settling(env, s) && Enabled(env, s, step) && Starved(s, d)
    ensures Starved(Apply(cfg, env, s, step), d)
    ensures Apply(cfg, env, s, step).t.documents[d] == s.t.documents[d]
  {
    OlderStays(cfg, env, s, step, d);
    FinishedStays(cfg, env, s, step, d);
    if step.ListExpired? && d in step.ids {
      ReachedHasFewOlder(s.t.documents, step.cutoff, step.ids, d);
    }
    SweepsGrow(cfg, env, s, step);
  }

  lemma SweepsGrow(cfg: Config, env: Env, s: State, step: Step)
    requires Enabled(env, s, step)
    ensures var u := Apply(cfg, env, s, step);
      forall w :: w in u.sweeps ==> (w in s.sweeps && u.sweeps[w] == s.sweeps[w]) || (step.ListExpired? && u.sweeps[w] == step.ids)
  {
  }

  /** A finished row with a hundred older ones, listed by no sweep under way, is never touched again. */
  lemma {:induction false} StarvedForGood(cfg: Config, env: Env, s: State, steps: seq<Step>, d: DocId)
    requires Orderly(env) && Settling(env, s) && Possible(cfg, env, s, steps) && Starved(s, d)
    ensures var u := After(cfg, env, s, steps); d in u.t.documents && u.t.documents[d] == s.t.documents[d]
    decreases |steps|
  {
    if steps != [] {
      StepKeepsSettling(cfg, env, s, steps[0]);
      StepKeepsStarved(cfg, env, s, steps[0], d);
      StarvedForGood(cfg, env, Apply(cfg, env, s, steps[0]), steps[1..], d);
    }
  }

  /** Whether anything is left to purge. */
  predicate Retains(r: Row) {
    r.result.Some? || r.errorMessage.Some?
  }

  lemma ListedIsPurged(cfg: Config, env: Env, s: State, d: DocId, w: nat, cutoff: Time, ids: seq<DocId>)
    returns (u: State)
    requires w !in s.sweeps && IsSweep(s.t.documents, cutoff, ids) && d in ids
    ensures Possible(cfg, env, s, [ListExpired(w, cutoff, ids), Purge(w)])
    ensures u == After(cfg, env, s, [ListExpired(w, cutoff, ids), Purge(w)])
    ensures d in u.t.documents && !Retains(u.t.documents[d])
  {
    OneStep(cfg, env, s, ListExpired(w, cutoff, ids));
    var t := Apply(cfg, env, s, ListExpired(w, cutoff, ids));
    assert w in t.sweeps && t.sweeps[w] == ids && t.t == s.t && d in s.t.documents;
    Then(cfg, env, s, [ListExpired(w, cutoff, ids)], Purge(w));
    assert [ListExpired(w, cutoff, ids)] + [Purge(w)] == [ListExpired(w, cutoff, ids), Purge(w)];
    u := Apply(cfg, env, t, Purge(w));
  }

  ghost predicate GetsPurged(cfg: Config, env: Env, s: State, steps: seq<Step>, d: DocId) {
    && Possible(cfg, env, s, steps)
    && var u := After(cfg, env, s, steps);
    d in u.t.documents && !Retains(u.t.documents[d])
  }

  /** A finished row that retains its result, and is listed by no sweep under way, can still be purged exactly when
    * fewer than a hundred rows were finished before it. */
  lemma {:induction false} CanBePurgedIff(cfg: Config, env: Env, steps: seq<Step>, d: DocId)
    requires Orderly(env) && Possible(cfg, env, INITIAL, steps)
    requires var s := After(cfg, env, INITIAL, steps);
      && d in s.t.documents && s.t.documents[d].processedAt.Some? && Retains(s.t.documents[d])
      && forall w :: w in s.sweeps ==> d !in s.sweeps[w]
    ensures var s := After(cfg, env, INITIAL, steps);
      (exists more :: GetsPurged(cfg, env, s, more, d)) <==> |Older(s.t.documents, d)| < SWEEP_LIMIT
  {
    RunSettles(cfg, env, INITIAL, steps);
    var s := After(cfg, env, INITIAL, steps);
    if |Older(s.t.documents, d)| < SWEEP_LIMIT {
      PurgedSoon(cfg, env, s, d);
    } else {
      forall more | Possible(cfg, env, s, more) ensures !GetsPurged(cfg, env, s, more, d) {
        StarvedForGood(cfg, env, s, more, d);
      }
    }
  }

  lemma {:induction false} PurgedSoon(cfg: Config, env: Env, s: State, d: DocId)
    requires d in s.t.documents && s.t.documents[d].processedAt.Some? && |Older(s.t.documents, d)| < SWEEP_LIMIT
    ensures exists more :: GetsPurged(cfg, env, s, more, d)
  {
    var cutoff := s.t.documents[d].processedAt.value + 1;
    SweepMayReachIff(s.t.documents, cutoff, d);
    var ids :| IsSweep(s.t.documents, cutoff, ids) && d in ids;
    var w := Unused(s.sweeps.Keys);
    var u := ListedIsPurged(cfg, env, s, d, w, cutoff, ids);
    assert GetsPurged(cfg, env, s, [ListExpired(w, cutoff, ids), Purge(w)], d);
  }

  lemma {:induction false} NotYoungerStays(cfg: Config, env: Env, s: State, steps: seq<Step>, d: DocId)
    requires Orderly(env) && Settling(env, s) && Possible(cfg, env, s, steps)
    requires d in s.t.documents && s.t.documents[d].processedAt.Some? && s.t.documents[d].processedAt.value < s.now
    ensures var u := After(cfg, env, s, steps);
      && d in u.t.documents && u.t.documents[d].processedAt == s.t.documents[d].processedAt
      && NotYounger(u.t.documents, d) == NotYounger(s.t.documents, d)
    decreases |steps|
  {
    if steps != [] {
      StepKeepsSettling(cfg, env, s, steps[0]);
      OlderStays(cfg, env, s, steps[0], d);
      StepDates(cfg, env, s, steps[0]);
      NotYoungerStays(cfg, env, Apply(cfg, env, s, steps[0]), steps[1..], d);
    }
  }

  /** Every sweep of any continuation lists an expired row, exactly when at most a hundred rows were finished by the
    * time it was, it included; the count is taken at any later moment. */
  lemma {:induction false} AlwaysListedIff(cfg: Config, env: Env, steps: seq<Step>, more: seq<Step>, d: DocId, cutoff: Time)
    requires Orderly(env) && Possible(cfg, env, INITIAL, steps) && Possible(cfg, env, After(cfg, env, INITIAL, steps), more)
    requires var s := After(cfg, env, INITIAL, steps);
      d in s.t.documents && s.t.documents[d].processedAt.Some? && s.t.documents[d].processedAt.value < s.now
    requires Expired(After(cfg, env, After(cfg, env, INITIAL, steps), more).t.documents, d, cutoff)
    ensures var s := After(cfg, env, INITIAL, steps);
      var u := After(cfg, env, s, more);
      (forall ids :: IsSweep(u.t.documents, cutoff, ids) ==> d in ids) <==> |NotYounger(s.t.documents, d)| <= SWEEP_LIMIT
  {
    RunSettles(cfg, env, INITIAL, steps);
    var s := After(cfg, env, INITIAL, steps);
    NotYoungerStays(cfg, env, s, more, d);
    SweepMustReachIff(After(cfg, env, s, more).t.documents, cutoff, d);
  }

  /** What is purged stays purged. */
  lemma {:induction false} PurgedForGood(cfg: Config, env: Env, s: State, steps: seq<Step>, d: DocId)
    requires Orderly(env) && Settling(env, s) && Possible(cfg, env, s, steps)
    requires d in s.t.documents && s.t.documents[d].processedAt.Some? && !Retains(s.t.documents[d])
    ensures var u := After(cfg, env, s, steps); d in u.t.documents && !Retains(u.t.documents[d])
    decreases |steps|
  {
    if steps != [] {
      StepKeepsSettling(cfg, env, s, steps[0]);
      FinishedStays(cfg, env, s, steps[0], d);
      PurgedForGood(cfg, env, Apply(cfg, env, s, steps[0]), steps[1..], d);
    }
  }

  // ----- a document whose message is never purged -----

  function Sub(key: nat): Submission {
    Submission(key, "ref", "receipt", "caller", "bucket", "path", "image/png", 1, None)
  }

  /** `n` documents, each processed within a request of its own and failed, one a microsecond. */
  ghost predicate InLine(s: State, n: nat) {
    && s.now == n && s.sweeps == map[]
    && (forall i: nat :: i in s.handlers <==> i < n) && (forall i: nat :: i in s.t.documents <==> i < n)
    && forall i: nat :: i < n ==>
         s.t.documents[i].submission.key == i && s.t.documents[i].processedAt == Some(i) && Retains(s.t.documents[i])
  }

  lemma NextInserted(cfg: Config, env: Env, s: State, n: nat) returns (steps: seq<Step>, u: State)
    requires InLine(s, n)
    ensures Path(cfg, env, s, steps, u)
    ensures u == s.(t := s.t.(documents := s.t.documents[n := QueuedRow(Sub(n), n)]),
                    handlers := s.handlers[n := Handler(ProcessRpc, Sub(n), true, Inline(Begin))])
  {
    var h := Handler(ProcessRpc, Sub(n), false, Arrived);
    var a := Apply(cfg, env, s, Arrive(n, ProcessRpc, Sub(n)));
    assert a == s.(handlers := s.handlers[n := h]);
    assert Insertable(a.t.documents, n, Sub(n).key);
    OneStep(cfg, env, s, Arrive(n, ProcessRpc, Sub(n)));
    Then(cfg, env, s, [Arrive(n, ProcessRpc, Sub(n))], Insert(n));
    steps := [Arrive(n, ProcessRpc, Sub(n))] + [Insert(n)];
    u := Apply(cfg, env, a, Insert(n));
    assert s.handlers[n := h][n := h.(inserted := true, pc := Inline(Begin))]
        == s.handlers[n := h.(inserted := true, pc := Inline(Begin))];
  }

  lemma NextDecided(cfg: Config, env: Env, s: State, n: nat) returns (steps: seq<Step>, u: State)
    requires n in s.t.documents && s.t.documents[n] == QueuedRow(Sub(n), n)
    requires n in s.handlers && s.handlers[n] == Handler(ProcessRpc, Sub(n), true, Inline(Begin))
    ensures Path(cfg, env, s, steps, u)
    ensures u.now == s.now && u.sweeps == s.sweeps && u.handlers.Keys == s.handlers.Keys
    ensures n in u.handlers && u.handlers[n].pc == Inline(Finishing(QueuedRow(Sub(n), n), Failure("INTERNAL", ""), false, true))
    ensures u.t == s.t.(documents := MarkedProcessing(s.t.documents, n, s.now))
  {
    var doc := QueuedRow(Sub(n), n);
    var a := Apply(cfg, env, s, RunInline(n, DoRead));
    assert a == s.(handlers := s.handlers[n := s.handlers[n].(pc := Inline(Read(doc)))]);
    var b := Apply(cfg, env, a, RunInline(n, DoMark));
    assert b.handlers == a.handlers[n := a.handlers[n].(pc := Inline(Working(doc)))] && b.now == s.now && b.sweeps == s.sweeps;
    Three(cfg, env, s, RunInline(n, DoRead), RunInline(n, DoMark), RunInline(n, DoStages(OtherError(""))));
    steps := [RunInline(n, DoRead), RunInline(n, DoMark), RunInline(n, DoStages(OtherError("")))];
    u := Apply(cfg, env, b, RunInline(n, DoStages(OtherError(""))));
  }

  lemma NextFinished(cfg: Config, env: Env, s: State, n: nat, doc: Row) returns (steps: seq<Step>, u: State)
    requires n in s.handlers && s.handlers[n].pc == Inline(Finishing(doc, Failure("INTERNAL", ""), false, true))
    ensures Path(cfg, env, s, steps, u)
    ensures u.now == s.now + 1 && u.sweeps == s.sweeps && u.handlers.Keys == s.handlers.Keys
    ensures u.t == FinishTables(cfg, s.t, n, doc, Failure("INTERNAL", ""), s.now)
  {
    var a := Apply(cfg, env, s, RunInline(n, DoFinish(Fine, "")));
    OneStep(cfg, env, s, RunInline(n, DoFinish(Fine, "")));
    Then(cfg, env, s, [RunInline(n, DoFinish(Fine, ""))], Elapse(1));
    steps := [RunInline(n, DoFinish(Fine, ""))] + [Elapse(1)];
    u := Apply(cfg, env, a, Elapse(1));
  }

  lemma NextInLine(cfg: Config, env: Env, s: State, n: nat) returns (steps: seq<Step>, u: State)
    requires InLine(s, n)
    ensures Path(cfg, env, s, steps, u) && InLine(u, n + 1)
  {
    var a, b, more;
    steps, a := NextInserted(cfg, env, s, n);
    more, b := NextDecided(cfg, env, a, n);
    steps := Join(cfg, env, s, steps, a, more, b);
    more, u := NextFinished(cfg, env, b, n, QueuedRow(Sub(n), n));
    steps := Join(cfg, env, s, steps, b, more, u);
  }

  lemma {:induction false} LineUp(cfg: Config, env: Env, n: nat) returns (steps: seq<Step>, s: State)
    ensures Path(cfg, env, INITIAL, steps, s) && InLine(s, n)
  {
    if n == 0 {
      steps, s := [], INITIAL;
    } else {
      var before, more;
      steps, before := LineUp(cfg, env, n - 1);
      more, s := NextInLine(cfg, env, before, n - 1);
      steps := Join(cfg, env, INITIAL, steps, before, more, s);
    }
  }

  lemma {:induction false} FirstNumbers(n: nat) returns (all: set<nat>)
    ensures |all| == n && forall i: nat :: i in all <==> i < n
  {
    if n == 0 {
      all := {};
    } else {
      var before := FirstNumbers(n - 1);
      all := before + {n - 1};
    }
  }

  /** After a hundred and one failed documents, the message of the last one is kept in every continuation: not every
    * expired result is eventually purged. */
  lemma {:induction false} SomeMessageStaysForGood(cfg: Config, env: Env) returns (steps: seq<Step>, d: DocId)
    requires Orderly(env)
    ensures Possible(cfg, env, INITIAL, steps)
    ensures var s := After(cfg, env, INITIAL, steps);
      && d in s.t.documents && Retains(s.t.documents[d]) && Starved(s, d)
      && forall more :: Possible(cfg, env, s, more) ==> !GetsPurged(cfg, env, s, more, d)
  {
    var s;
    steps, s := LineUp(cfg, env, SWEEP_LIMIT + 1);
    d := SWEEP_LIMIT;
    var older := FirstNumbers(SWEEP_LIMIT);
    assert Older(s.t.documents, d) == older;
    RunSettles(cfg, env, INITIAL, steps);
    forall more | Possible(cfg, env, s, more) ensures !GetsPurged(cfg, env, s, more, d) {
      StarvedForGood(cfg, env, s, more, d);
    }
  }
}
