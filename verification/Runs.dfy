/** What holds of whole runs of the service, under any interleaving, crashes and retries. */
module Runs {
  import opened Prelude
  import opened Statuses
  import opened Lines
  import opened Documents
  import opened Envelopes
  import opened Tables
  import opened Stores
  import opened Pipeline
  import opened Lifecycle
  import opened Safety

  // ----- composing runs -----

  lemma {:induction false} Compose(cfg: Config, env: Env, s: State, a: seq<Step>, b: seq<Step>)
    requires Possible(cfg, env, s, a) && Possible(cfg, env, After(cfg, env, s, a), b)
    ensures Possible(cfg, env, s, a + b)
    ensures After(cfg, env, s, a + b) == After(cfg, env, After(cfg, env, s, a), b)
    decreases |a|
  {
    if a == [] {
      assert a + b == b;
    } else {
      assert (a + b)[0] == a[0] && (a + b)[1..] == a[1..] + b;
      Compose(cfg, env, Apply(cfg, env, s, a[0]), a[1..], b);
    }
  }

  lemma {:induction false} OneStep(cfg: Config, env: Env, s: State, step: Step)
    requires Enabled(env, s, step)
    ensures Possible(cfg, env, s, [step]) && After(cfg, env, s, [step]) == Apply(cfg, env, s, step)
  {
    assert [step][1..] == [];
  }

  /** A run, one step longer. */
  lemma {:induction false} Then(cfg: Config, env: Env, s: State, a: seq<Step>, step: Step)
    requires Possible(cfg, env, s, a) && Enabled(env, After(cfg, env, s, a), step)
    ensures Possible(cfg, env, s, a + [step])
    ensures After(cfg, env, s, a + [step]) == Apply(cfg, env, After(cfg, env, s, a), step)
  {
    OneStep(cfg, env, After(cfg, env, s, a), step);
    Compose(cfg, env, s, a, [step]);
  }

  // ----- the invariant over runs -----

  lemma KeptThenKept(s: State, m: State, u: State)
    requires Inv(s) && Kept(s, m) && Kept(m, u)
    ensures Kept(s, u)
  {
    forall d | d in u.t.documents && d !in m.t.documents ensures !Submitted(s.handlers, d) {
      assert !Submitted(m.handlers, d);
    }
  }

  lemma {:induction false} RunKeeps(cfg: Config, env: Env, s: State, steps: seq<Step>)
    requires Inv(s) && Possible(cfg, env, s, steps)
    ensures Kept(s, After(cfg, env, s, steps))
    decreases |steps|
  {
    if steps != [] {
      var m := Apply(cfg, env, s, steps[0]);
      StepKeeps(cfg, env, s, steps[0]);
      RunKeeps(cfg, env, m, steps[1..]);
      KeptThenKept(s, m, After(cfg, env, s, steps));
    }
  }

  /** In every reachable state a present row is terminal exactly when it has an event, and the last of its events
    * agrees with it: with its result, or its error; of a row purged since, with the code and status that are left. */
  lemma {:induction false} TerminalIffAnnounced(cfg: Config, env: Env, steps: seq<Step>, id: DocId)
    requires Possible(cfg, env, INITIAL, steps) && id in After(cfg, env, INITIAL, steps).t.documents
    ensures var s := After(cfg, env, INITIAL, steps);
      var r := s.t.documents[id];
      var events := EventsOf(s.t.outbox, id);
      && (r.status.Terminal() <==> events != [])
      && (events != [] ==>
            var last := events[|events| - 1];
            if id in s.purged then AgreesPurged(r, last) else Agrees(r, last))
  {
    RunKeeps(cfg, env, INITIAL, steps);
    var s := After(cfg, env, INITIAL, steps);
    assert RowOk(s.t.documents[id], EventsOf(s.t.outbox, id), id in s.purged);
  }

  /** Every event ever written carries exactly one of data and error, and echoes what was submitted. */
  lemma {:induction false} EveryEventIsWellFormed(cfg: Config, env: Env, steps: seq<Step>, i: nat)
    requires Possible(cfg, env, INITIAL, steps) && i < |After(cfg, env, INITIAL, steps).t.outbox|
    ensures var s := After(cfg, env, INITIAL, steps);
      var e := s.t.outbox[i];
      && ExactlyOne(e.payload)
      && e.docId in s.handlers && Echoes(e.payload, e.docId, s.handlers[e.docId].submission)
  {
    RunKeeps(cfg, env, INITIAL, steps);
    assert EventOk(After(cfg, env, INITIAL, steps).t.outbox[i], After(cfg, env, INITIAL, steps).handlers);
  }

  /** A later reading of a row: not queued again, once finished still finished, and of the same submission. */
  predicate Onward(a: Row, b: Row) {
    && (b.status == Queued ==> a.status == Queued)
    && (a.status in {Completed, NeedsReview, Failed} ==> b.status in {Completed, NeedsReview, Failed})
    && b.submission == a.submission
  }

  lemma {:induction false} KeptIsOnward(s: State, u: State, id: DocId)
    requires Kept(s, u) && id in s.t.documents && id in u.t.documents
    ensures Onward(s.t.documents[id], u.t.documents[id])
  {
  }

  /** No interleaving moves a document down the order queued, processing, terminal, or changes what was submitted. */
  lemma {:induction false} NoDocumentGoesBack(cfg: Config, env: Env, steps: seq<Step>, more: seq<Step>, id: DocId)
    requires Possible(cfg, env, INITIAL, steps) && Possible(cfg, env, After(cfg, env, INITIAL, steps), more)
    requires id in After(cfg, env, INITIAL, steps).t.documents
    requires id in After(cfg, env, After(cfg, env, INITIAL, steps), more).t.documents
    ensures var a := After(cfg, env, INITIAL, steps);
      var b := After(cfg, env, a, more);
      Onward(a.t.documents[id], b.t.documents[id])
  {
    RunKeeps(cfg, env, INITIAL, steps);
    RunKeeps(cfg, env, After(cfg, env, INITIAL, steps), more);
    KeptIsOnward(After(cfg, env, INITIAL, steps), After(cfg, env, After(cfg, env, INITIAL, steps), more), id);
  }

  /** A row that was inserted and is gone never comes back. */
  lemma {:induction false} DeletedForGood(cfg: Config, env: Env, steps: seq<Step>, more: seq<Step>, id: DocId)
    requires Possible(cfg, env, INITIAL, steps) && Possible(cfg, env, After(cfg, env, INITIAL, steps), more)
    requires var a := After(cfg, env, INITIAL, steps); Submitted(a.handlers, id) && id !in a.t.documents
    ensures id !in After(cfg, env, After(cfg, env, INITIAL, steps), more).t.documents
  {
    RunKeeps(cfg, env, INITIAL, steps);
    RunKeeps(cfg, env, After(cfg, env, INITIAL, steps), more);
  }

  /** A purge touches only rows that were finished, and of those only the result and the error message. */
  lemma {:induction false} PurgeTouchesOnlyFinished(cfg: Config, env: Env, steps: seq<Step>, w: nat, id: DocId)
    requires Possible(cfg, env, INITIAL, steps)
    requires var s := After(cfg, env, INITIAL, steps); Enabled(env, s, Purge(w)) && id in s.t.documents
    ensures var s := After(cfg, env, INITIAL, steps);
      var u := Apply(cfg, env, s, Purge(w));
      var r := s.t.documents[id];
      && id in u.t.documents && u.t.outbox == s.t.outbox
      && (id in s.sweeps[w] ==> r.status.Terminal() && r.processedAt.Some?)
      && (id !in s.sweeps[w] ==> u.t.documents[id] == r)
      && u.t.documents[id].(result := r.result, errorMessage := r.errorMessage, updatedAt := r.updatedAt) == r
  {
    RunKeeps(cfg, env, INITIAL, steps);
    var s := After(cfg, env, INITIAL, steps);
    assert SweepOk(s.sweeps[w], s.t.documents, s.handlers);
    assert RowOk(s.t.documents[id], EventsOf(s.t.outbox, id), id in s.purged);
  }

  // ----- where one event per document fails -----

  /** A finish adds an event beyond the first exactly when the row it updates is already terminal: the update has no
    * guard on the status. */
  lemma {:induction false} FinishDuplicatesIff(cfg: Config, env: Env, steps: seq<Step>, id: DocId, doc: Row, o: Outcome)
    requires Possible(cfg, env, INITIAL, steps) && id in After(cfg, env, INITIAL, steps).t.documents
    ensures var s := After(cfg, env, INITIAL, steps);
      |EventsOf(FinishTables(cfg, s.t, id, doc, o, s.now).outbox, id)| > 1 <==> s.t.documents[id].status.Terminal()
  {
    TerminalIffAnnounced(cfg, env, steps, id);
    var s := After(cfg, env, INITIAL, steps);
    var u := FinishTables(cfg, s.t, id, doc, o, s.now);
    EventsOfAppend(s.t.outbox, u.outbox[|s.t.outbox|], id);
  }

  lemma {:induction false} Three(cfg: Config, env: Env, s: State, a: Step, b: Step, c: Step)
    requires Enabled(env, s, a) && Enabled(env, Apply(cfg, env, s, a), b)
    requires Enabled(env, Apply(cfg, env, Apply(cfg, env, s, a), b), c)
    ensures Possible(cfg, env, s, [a, b, c])
    ensures After(cfg, env, s, [a, b, c]) == Apply(cfg, env, Apply(cfg, env, Apply(cfg, env, s, a), b), c)
  {
    OneStep(cfg, env, s, a);
    Then(cfg, env, s, [a], b);
    Then(cfg, env, s, [a, b], c);
    assert [a] + [b] == [a, b] && [a, b] + [c] == [a, b, c];
  }

  /** A cancelled request reads its row and marks it failed, whatever its status. */
  lemma MarkedCancelled(cfg: Config, env: Env, s: State, id: DocId) returns (b: State, u: State)
    requires id in s.handlers && s.handlers[id].pc.Cancelling? && id in s.t.documents
    ensures Enabled(env, s, ReadCancelled(id)) && b == Apply(cfg, env, s, ReadCancelled(id))
    ensures Enabled(env, b, FinishCancelled(id, Fine)) && u == Apply(cfg, env, b, FinishCancelled(id, Fine))
    ensures u.t == FinishTables(cfg, s.t, id, s.t.documents[id], CANCELLED, s.now)
  {
    b := Apply(cfg, env, s, ReadCancelled(id));
    u := Apply(cfg, env, b, FinishCancelled(id, Fine));
  }

  lemma CancelledLate(cfg: Config, s: State, id: DocId) returns (a: State)
    requires id in s.handlers && s.handlers[id].pc.Inline? && s.handlers[id].pc.pc.Finishing? && id in s.t.documents
    ensures Enabled(ANY, s, Cancel(id, true)) && a == Apply(cfg, ANY, s, Cancel(id, true))
    ensures var pc := s.handlers[id].pc.pc;
      a.t == FinishTables(cfg, s.t, id, pc.doc, pc.outcome, s.now) && id in a.handlers && a.handlers[id].pc.Cancelling?
  {
    a := Apply(cfg, ANY, s, Cancel(id, true));
  }

  /** Wherever a request is about to commit an outcome, a cancellation that lands just after the commit replaces it
    * by a failure, and announces both. */
  lemma {:induction false} LateCancelOverwrites(cfg: Config, s: State, id: DocId)
    requires id in s.handlers && s.handlers[id].pc.Inline? && s.handlers[id].pc.pc.Finishing? && id in s.t.documents
    ensures var steps := [Cancel(id, true), ReadCancelled(id), FinishCancelled(id, Fine)];
      && Possible(cfg, ANY, s, steps)
      && var u := After(cfg, ANY, s, steps);
      && id in u.t.documents
      && u.t.documents[id].status == Failed && u.t.documents[id].errorCode == Some("INTERNAL")
      && |EventsOf(u.t.outbox, id)| == |EventsOf(s.t.outbox, id)| + 2
  {
    var a := CancelledLate(cfg, s, id);
    var b, u := MarkedCancelled(cfg, ANY, a, id);
    Three(cfg, ANY, s, Cancel(id, true), ReadCancelled(id), FinishCancelled(id, Fine));
    EventsOfAppend(s.t.outbox, a.t.outbox[|s.t.outbox|], id);
    EventsOfAppend(a.t.outbox, u.t.outbox[|a.t.outbox|], id);
  }

  lemma {:induction false} RequestArrives(cfg: Config, env: Env, id: DocId, sub: Submission)
    ensures var steps := [Arrive(id, ProcessRpc, sub), Insert(id)];
      && Possible(cfg, env, INITIAL, steps)
      && var s := After(cfg, env, INITIAL, steps);
      && s.t.documents == map[id := QueuedRow(sub, 0)] && id in s.handlers && s.handlers[id].pc == Inline(Begin)
  {
    OneStep(cfg, env, INITIAL, Arrive(id, ProcessRpc, sub));
    Then(cfg, env, INITIAL, [Arrive(id, ProcessRpc, sub)], Insert(id));
    assert [Arrive(id, ProcessRpc, sub)] + [Insert(id)] == [Arrive(id, ProcessRpc, sub), Insert(id)];
  }

  lemma {:induction false} RequestRuns(cfg: Config, env: Env, s: State, id: DocId, stages: Stages)
    requires id in s.handlers && s.handlers[id].pc == Inline(Begin) && Processable(s.t, id)
    ensures var steps := [RunInline(id, DoRead), RunInline(id, DoMark), RunInline(id, DoStages(stages))];
      && Possible(cfg, env, s, steps)
      && var u := After(cfg, env, s, steps);
      && id in u.handlers && u.handlers[id].pc == AfterRun(AfterStages(cfg, s.t.documents[id], stages))
      && u.t == s.t.(documents := MarkedProcessing(s.t.documents, id, s.now)) && u.jobs == s.jobs && u.now == s.now
  {
    var a := Apply(cfg, env, s, RunInline(id, DoRead));
    assert a.handlers[id].pc == Inline(Read(s.t.documents[id])) && a.t == s.t && a.now == s.now;
    var b := Apply(cfg, env, a, RunInline(id, DoMark));
    assert b.handlers[id].pc == Inline(Working(s.t.documents[id]));
    Three(cfg, env, s, RunInline(id, DoRead), RunInline(id, DoMark), RunInline(id, DoStages(stages)));
  }

  /** A request can get that far, with any recognized lines. */
  lemma {:induction false} RequestReachesCommit(cfg: Config, env: Env, id: DocId, sub: Submission, lines: seq<Line>)
    requires sub.docType in cfg.schemas
    ensures exists steps ::
      && Possible(cfg, env, INITIAL, steps)
      && var s := After(cfg, env, INITIAL, steps);
      && id in s.t.documents && id in s.handlers
      && s.handlers[id].pc == Inline(Finishing(QueuedRow(sub, 0), Success(cfg, cfg.schemas[sub.docType], lines), true, false))
  {
    var a := [Arrive(id, ProcessRpc, sub), Insert(id)];
    RequestArrives(cfg, env, id, sub);
    var s := After(cfg, env, INITIAL, a);
    var b := [RunInline(id, DoRead), RunInline(id, DoMark), RunInline(id, DoStages(Recognized(lines)))];
    RequestRuns(cfg, env, s, id, Recognized(lines));
    Compose(cfg, env, INITIAL, a, b);
    assert Possible(cfg, env, INITIAL, a + b);
  }

  predicate AboutToFinish(s: State, w: nat, id: DocId) {
    w in s.workers && s.workers[w].docId == id && s.workers[w].pc.Finishing?
  }

  /** Wherever two runs of a document are about to commit, each may commit: the second outcome replaces the first,
    * and both are announced. */
  lemma {:induction false} SecondRunnerOverwrites(cfg: Config, s: State, id: DocId, w: nat, x: nat)
    requires AboutToFinish(s, w, id) && AboutToFinish(s, x, id) && w != x && id in s.t.documents
    ensures var steps := [RunWorker(w, DoFinish(Fine, "")), RunWorker(x, DoFinish(Fine, ""))];
      && Possible(cfg, ANY, s, steps)
      && var u := After(cfg, ANY, s, steps);
      && id in u.t.documents && u.t.documents[id].status == s.workers[x].pc.outcome.status
      && |EventsOf(u.t.outbox, id)| == |EventsOf(s.t.outbox, id)| + 2
  {
    var a := Apply(cfg, ANY, s, RunWorker(w, DoFinish(Fine, "")));
    assert a.t == FinishTables(cfg, s.t, id, s.workers[w].pc.doc, s.workers[w].pc.outcome, s.now);
    assert AboutToFinish(a, x, id) && a.workers[x] == s.workers[x];
    OneStep(cfg, ANY, s, RunWorker(w, DoFinish(Fine, "")));
    Then(cfg, ANY, s, [RunWorker(w, DoFinish(Fine, ""))], RunWorker(x, DoFinish(Fine, "")));
    var u := Apply(cfg, ANY, a, RunWorker(x, DoFinish(Fine, "")));
    EventsOfAppend(s.t.outbox, a.t.outbox[|s.t.outbox|], id);
    EventsOfAppend(a.t.outbox, u.t.outbox[|a.t.outbox|], id);
  }

  // ----- such states are reached -----

  ghost predicate Path(cfg: Config, env: Env, s: State, steps: seq<Step>, u: State) {
    Possible(cfg, env, s, steps) && After(cfg, env, s, steps) == u
  }

  lemma {:induction false} Join(cfg: Config, env: Env, s: State, a: seq<Step>, m: State, b: seq<Step>, u: State)
    returns (steps: seq<Step>)
    requires Path(cfg, env, s, a, m) && Path(cfg, env, m, b, u)
    ensures Path(cfg, env, s, steps, u)
  {
    Compose(cfg, env, s, a, b);
    steps := a + b;
  }

  lemma {:induction false} WorkerRuns(cfg: Config, env: Env, s: State, w: nat, id: DocId, stages: Stages)
    returns (steps: seq<Step>, u: State)
    requires w in s.workers && s.workers[w] == Worker(id, Begin, 0) && Processable(s.t, id)
    ensures Path(cfg, env, s, steps, u)
    ensures u == s.(t := s.t.(documents := MarkedProcessing(s.t.documents, id, s.now)),
                    workers := s.workers[w := Worker(id, AfterStages(cfg, s.t.documents[id], stages), 0)])
  {
    var doc := s.t.documents[id];
    var a := Apply(cfg, env, s, RunWorker(w, DoRead));
    assert a == s.(workers := s.workers[w := Worker(id, Read(doc), 0)]);
    var b := Apply(cfg, env, a, RunWorker(w, DoMark));
    assert b.workers == s.workers[w := Worker(id, Working(doc), 0)];
    Three(cfg, env, s, RunWorker(w, DoRead), RunWorker(w, DoMark), RunWorker(w, DoStages(stages)));
    steps := [RunWorker(w, DoRead), RunWorker(w, DoMark), RunWorker(w, DoStages(stages))];
    u := Apply(cfg, env, b, RunWorker(w, DoStages(stages)));
  }

  lemma {:induction false} JobQueued(cfg: Config, env: Env, id: DocId, sub: Submission) returns (steps: seq<Step>, s: State)
    ensures Path(cfg, env, INITIAL, steps, s)
    ensures s.t == Tables(map[id := QueuedRow(sub, 0)], []) && s.jobs == {id} && s.workers == map[]
  {
    var a := Apply(cfg, env, INITIAL, Arrive(id, SubmitRpc, sub));
    var b := Apply(cfg, env, a, Insert(id));
    assert b.handlers[id].pc == Inserted && b.jobs == {} && b.workers == map[] && b.t.outbox == [];
    Three(cfg, env, INITIAL, Arrive(id, SubmitRpc, sub), Insert(id), Enqueue(id, false, true));
    steps := [Arrive(id, SubmitRpc, sub), Insert(id), Enqueue(id, false, true)];
    s := Apply(cfg, env, b, Enqueue(id, false, true));
  }

  lemma {:induction false} TwoStarted(cfg: Config, env: Env, s: State, id: DocId) returns (steps: seq<Step>, u: State)
    requires !env.oneRunner && id in s.jobs && s.workers == map[]
    ensures Path(cfg, env, s, steps, u)
    ensures u == s.(workers := map[0 := Worker(id, Begin, 0), 1 := Worker(id, Begin, 0)])
  {
    OneStep(cfg, env, s, StartWorker(0, id));
    var a := Apply(cfg, env, s, StartWorker(0, id));
    Then(cfg, env, s, [StartWorker(0, id)], StartWorker(1, id));
    steps := [StartWorker(0, id)] + [StartWorker(1, id)];
    u := Apply(cfg, env, a, StartWorker(1, id));
  }

  ghost predicate BothAboutToFinish(s: State, id: DocId) {
    AboutToFinish(s, 0, id) && AboutToFinish(s, 1, id) && id in s.t.documents && s.t.outbox == []
  }

  /** Where a document may have several runners, two of them can come to their commits together, whatever each of them
    * decided. */
  lemma {:induction false} TwoRunnersReachCommit(cfg: Config, env: Env, id: DocId, sub: Submission, a: Stages, b: Stages)
    returns (steps: seq<Step>)
    requires !env.oneRunner && !a.ProviderTransient? && !b.ProviderTransient?
    ensures Possible(cfg, env, INITIAL, steps) && BothAboutToFinish(After(cfg, env, INITIAL, steps), id)
  {
    var s, t, u, v, more;
    steps, s := JobQueued(cfg, env, id, sub);
    more, t := TwoStarted(cfg, env, s, id);
    steps := Join(cfg, env, INITIAL, steps, s, more, t);
    more, u := WorkerRuns(cfg, env, t, 0, id, a);
    steps := Join(cfg, env, INITIAL, steps, t, more, u);
    more, v := WorkerRuns(cfg, env, u, 1, id, b);
    steps := Join(cfg, env, INITIAL, steps, u, more, v);
    OutcomesAreWellFormed(cfg, t.t.documents[id], a);
    OutcomesAreWellFormed(cfg, u.t.documents[id], b);
  }

  lemma {:induction false} BothFinish(cfg: Config, s: State, id: DocId) returns (steps: seq<Step>, u: State)
    requires BothAboutToFinish(s, id)
    ensures Path(cfg, ANY, s, steps, u) && |EventsOf(u.t.outbox, id)| == 2
  {
    SecondRunnerOverwrites(cfg, s, id, 0, 1);
    steps := [RunWorker(0, DoFinish(Fine, "")), RunWorker(1, DoFinish(Fine, ""))];
    u := After(cfg, ANY, s, steps);
  }

  /** So a document can be announced twice, its second outcome replacing the first. */
  lemma {:induction false} TwoEventsHappen(cfg: Config, id: DocId, sub: Submission, a: Stages, b: Stages)
    returns (steps: seq<Step>)
    requires !a.ProviderTransient? && !b.ProviderTransient?
    ensures Possible(cfg, ANY, INITIAL, steps) && |EventsOf(After(cfg, ANY, INITIAL, steps).t.outbox, id)| == 2
  {
    steps := TwoRunnersReachCommit(cfg, ANY, id, sub, a, b);
    var s := After(cfg, ANY, INITIAL, steps);
    var more, u := BothFinish(cfg, s, id);
    steps := Join(cfg, ANY, INITIAL, steps, s, more, u);
  }
}
