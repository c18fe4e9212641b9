/** The publisher, the retention sweep and the workers as runs of the machine, and what consumers can rely on. */
module Actors {
  import opened Prelude
  import opened Statuses
  import opened Documents
  import opened Envelopes
  import opened Tables
  import opened Stores
  import opened Pipeline
  import opened Lifecycle
  import opened Safety
  import opened Runs
  import Publishing
  import Retention

  /** In every reachable state, the message of every row is keyed by the document that its payload tells of, carries exactly
    * one of data and error, and echoes what was submitted for that document. */
  lemma {:induction false} KeyedByDocument(cfg: Config, env: Env, steps: seq<Step>, i: nat, m: Publishing.Message, topicDefault: string)
    requires Possible(cfg, env, INITIAL, steps) && i < |After(cfg, env, INITIAL, steps).t.outbox|
    requires Publishing.Conveys(m, After(cfg, env, INITIAL, steps).t.outbox[i], topicDefault)
    ensures var s := After(cfg, env, INITIAL, steps);
      && m.key == m.payload.documentId == m.headers.aggregateId
      && m.headers.eventId == m.payload.eventId && m.headers.eventType == m.payload.eventType
      && m.payload.data.Present? != m.payload.error.Present?
      && m.key in s.handlers
      && var sub := s.handlers[m.key].submission;
         m.payload.idempotencyKey == sub.key && m.payload.externalRef == sub.externalRef && m.payload.callerId == sub.callerId
  {
    EveryEventIsWellFormed(cfg, env, steps, i);
  }

  // ----- a tick -----

  /** The machine after the first `k` rows of a batch: handed over and marked. */
  ghost predicate AtRow(s: State, u: State, p: nat, name: string, ids: seq<nat>, k: nat) {
    && k <= |ids| && Publishing.Within(ids, s.t.outbox)
    && p in u.polls && u.polls[p] == Poll(LeasesOf(s.t.outbox, ids), k, false)
    && SoFar(s, u, name, ids, k, k)
  }

  ghost predicate SoFar(s: State, u: State, name: string, ids: seq<nat>, handed: nat, marked: nat) {
    && handed <= |ids| && marked <= |ids|
    && u.now == s.now && u.t.documents == s.t.documents
    && u.log == s.log + LeasesOf(s.t.outbox, ids)[..handed]
    && u.t.outbox == Publishing.Marked(Claimed(s.t.outbox, ids, name, s.now), ids, marked, s.now)
  }

  lemma {:induction false} PollStarts(cfg: Config, s: State, p: nat, name: string, batch: nat, ids: seq<nat>)
    requires p !in s.polls && IsClaim(s.t.outbox, s.now, batch, ids)
    ensures Enabled(ANY, s, StartPoll(p, name, batch, ids))
    ensures AtRow(s, Apply(cfg, ANY, s, StartPoll(p, name, batch, ids)), p, name, ids, 0)
  {
    Publishing.ClaimsAreWithin(s.t.outbox, s.now, batch, ids);
  }

  lemma {:induction false} RowHandedOver(cfg: Config, s: State, u: State, p: nat, name: string, ids: seq<nat>, k: nat)
    requires AtRow(s, u, p, name, ids, k) && k < |ids|
    ensures Enabled(ANY, u, Produce(p))
    ensures var v := Apply(cfg, ANY, u, Produce(p));
      p in v.polls && v.polls[p] == Poll(LeasesOf(s.t.outbox, ids), k, true) && SoFar(s, v, name, ids, k + 1, k)
  {
    var leases := LeasesOf(s.t.outbox, ids);
    assert leases[..k + 1] == leases[..k] + [leases[k]];
  }

  lemma {:induction false} RowMarked(cfg: Config, s: State, v: State, p: nat, name: string, ids: seq<nat>, k: nat, landed: bool,
                                     raises: bool)
    requires p in v.polls && v.polls[p] == Poll(LeasesOf(s.t.outbox, ids), k, true) && k < |ids| && (raises || landed)
    requires SoFar(s, v, name, ids, k + 1, k) && Publishing.Within(ids, s.t.outbox)
    ensures Enabled(ANY, v, Mark(p, landed, raises))
    ensures var u := Apply(cfg, ANY, v, Mark(p, landed, raises));
      && SoFar(s, u, name, ids, k + 1, if landed then k + 1 else k)
      && (raises ==> p !in u.polls) && (!raises ==> AtRow(s, u, p, name, ids, k + 1))
  {
  }

  lemma {:induction false} RowsTicked(cfg: Config, s: State, p: nat, name: string, batch: nat, ids: seq<nat>, k: nat)
    returns (steps: seq<Step>)
    requires p !in s.polls && IsClaim(s.t.outbox, s.now, batch, ids) && k <= |ids|
    ensures Possible(cfg, ANY, s, steps) && AtRow(s, After(cfg, ANY, s, steps), p, name, ids, k)
  {
    if k == 0 {
      steps := [StartPoll(p, name, batch, ids)];
      PollStarts(cfg, s, p, name, batch, ids);
      OneStep(cfg, ANY, s, steps[0]);
    } else {
      steps := RowsTicked(cfg, s, p, name, batch, ids, k - 1);
      steps := RowTicked(cfg, s, steps, p, name, ids, k - 1, true, false);
    }
  }

  /** One row more: handed over, then marked, or not. */
  lemma {:induction false} RowTicked(cfg: Config, s: State, steps: seq<Step>, p: nat, name: string, ids: seq<nat>, k: nat,
                                     landed: bool, raises: bool) returns (more: seq<Step>)
    requires Possible(cfg, ANY, s, steps) && AtRow(s, After(cfg, ANY, s, steps), p, name, ids, k) && k < |ids| && (raises || landed)
    ensures Possible(cfg, ANY, s, more)
    ensures var u := After(cfg, ANY, s, more);
      && SoFar(s, u, name, ids, k + 1, if landed then k + 1 else k)
      && (raises ==> p !in u.polls) && (!raises ==> AtRow(s, u, p, name, ids, k + 1))
  {
    var u := After(cfg, ANY, s, steps);
    RowHandedOver(cfg, s, u, p, name, ids, k);
    Then(cfg, ANY, s, steps, Produce(p));
    RowMarked(cfg, s, Apply(cfg, ANY, u, Produce(p)), p, name, ids, k, landed, raises);
    Then(cfg, ANY, s, steps + [Produce(p)], Mark(p, landed, raises));
    more := steps + [Produce(p)] + [Mark(p, landed, raises)];
  }

  lemma {:induction false} PollEnds(cfg: Config, s: State, u: State, p: nat, name: string, ids: seq<nat>, k: nat)
    requires AtRow(s, u, p, name, ids, k)
    ensures Enabled(ANY, u, EndPoll(p))
    ensures var v := Apply(cfg, ANY, u, EndPoll(p)); p !in v.polls && SoFar(s, v, name, ids, k, k)
  {
  }

  lemma {:induction false} PollClosed(cfg: Config, s: State, steps: seq<Step>, p: nat, name: string, ids: seq<nat>, k: nat)
    returns (more: seq<Step>)
    requires Possible(cfg, ANY, s, steps) && AtRow(s, After(cfg, ANY, s, steps), p, name, ids, k)
    ensures Possible(cfg, ANY, s, more)
    ensures var u := After(cfg, ANY, s, more); p !in u.polls && SoFar(s, u, name, ids, k, k)
  {
    PollEnds(cfg, s, After(cfg, ANY, s, steps), p, name, ids, k);
    Then(cfg, ANY, s, steps, EndPoll(p));
    more := steps + [EndPoll(p)];
  }

  /** The row where a tick ends, and whether it is still handed over and marked. */
  lemma WhereItEnds(ids: seq<nat>, upset: Option<Publishing.Upset>) returns (row: nat, handed: bool, landed: bool)
    ensures row <= |ids| && (handed ==> row < |ids|) && (landed ==> handed)
    ensures Publishing.Produced(ids, upset) == if handed then row + 1 else row
    ensures Publishing.Done(ids, upset) == if landed then row + 1 else row
  {
    if Publishing.Raises(ids, upset) {
      row, handed, landed := upset.value.row, !upset.value.trouble.NotProduced?, upset.value.trouble.MarkedThenRaised?;
    } else {
      row, handed, landed := |ids|, false, false;
    }
  }

  lemma {:induction false} TickEnds(cfg: Config, s: State, p: nat, name: string, batch: nat, ids: seq<nat>, row: nat, handed: bool, landed: bool)
    returns (steps: seq<Step>)
    requires p !in s.polls && IsClaim(s.t.outbox, s.now, batch, ids) && row <= |ids| && (handed ==> row < |ids|) && (landed ==> handed)
    ensures Possible(cfg, ANY, s, steps)
    ensures var u := After(cfg, ANY, s, steps);
      p !in u.polls && SoFar(s, u, name, ids, if handed then row + 1 else row, if landed then row + 1 else row)
  {
    steps := RowsTicked(cfg, s, p, name, batch, ids, row);
    if handed {
      steps := RowTicked(cfg, s, steps, p, name, ids, row, landed, true);
    } else {
      steps := PollClosed(cfg, s, steps, p, name, ids, row);
    }
  }

  /** A tick of the publisher, wherever it raises, is one of the machine's runs: the same outbox, and the same rows handed
    * over in the same order. */
  lemma {:induction false} TickIsARun(cfg: Config, s: State, p: nat, name: string, batch: nat, ids: seq<nat>,
                                      upset: Option<Publishing.Upset>) returns (steps: seq<Step>)
    requires p !in s.polls && IsClaim(s.t.outbox, s.now, batch, ids)
    ensures Possible(cfg, ANY, s, steps)
    ensures var u := After(cfg, ANY, s, steps);
      && p !in u.polls && u.now == s.now && u.t.documents == s.t.documents
      && u.t.outbox == Publishing.Ticked(s.t.outbox, ids, name, upset, s.now)
      && u.log == s.log + LeasesOf(s.t.outbox, ids)[..Publishing.Produced(ids, upset)]
  {
    var row, handed, landed := WhereItEnds(ids, upset);
    steps := TickEnds(cfg, s, p, name, batch, ids, row, handed, landed);
    SoFarIsTicked(s, After(cfg, ANY, s, steps), name, ids, upset);
  }

  lemma {:induction false} SoFarIsTicked(s: State, u: State, name: string, ids: seq<nat>, upset: Option<Publishing.Upset>)
    requires SoFar(s, u, name, ids, Publishing.Produced(ids, upset), Publishing.Done(ids, upset))
    ensures u.now == s.now && u.t.documents == s.t.documents
    ensures u.t.outbox == Publishing.Ticked(s.t.outbox, ids, name, upset, s.now)
    ensures u.log == s.log + LeasesOf(s.t.outbox, ids)[..Publishing.Produced(ids, upset)]
  {
  }

  // ----- a sweep -----

  /** A sweep of rows past the window of 24 hours is one of the machine's runs. */
  lemma {:induction false} SweepIsARun(cfg: Config, s: State, w: nat, ids: seq<DocId>) returns (steps: seq<Step>)
    requires w !in s.sweeps && IsSweep(s.t.documents, s.now - Retention.RETENTION, ids)
    ensures Possible(cfg, ANY, s, steps)
    ensures var u := After(cfg, ANY, s, steps);
      && u.t.documents == Purged(s.t.documents, ids, s.now) && u.t.outbox == s.t.outbox && u.now == s.now
      && u.purged == s.purged + (set d | d in ids)
  {
    var list := ListExpired(w, s.now - Retention.RETENTION, ids);
    OneStep(cfg, ANY, s, list);
    Then(cfg, ANY, s, [list], Purge(w));
    steps := [list] + [Purge(w)];
  }

  // ----- a worker's run -----

  /** The machine after some of a worker's steps, undisturbed. */
  ghost predicate Works(s: State, u: State, w: nat, id: DocId, t: Tables, pc: Pc) {
    && w in u.workers && u.workers[w].docId == id && u.workers[w].pc == pc
    && u.t == t && u.now == s.now && u.handlers == s.handlers && u.jobs == s.jobs
  }

  lemma {:induction false} WorkerSteps(cfg: Config, s: State, steps: seq<Step>, w: nat, id: DocId, t: Tables, pc: Pc, c: Choice)
    returns (more: seq<Step>)
    requires Possible(cfg, ANY, s, steps) && Works(s, After(cfg, ANY, s, steps), w, id, t, pc) && Fits(pc, c)
    ensures Possible(cfg, ANY, s, more)
    ensures var (t', pc') := RunStep(cfg, t, id, pc, c, s.now); Works(s, After(cfg, ANY, s, more), w, id, t', pc')
  {
    Then(cfg, ANY, s, steps, RunWorker(w, c));
    more := steps + [RunWorker(w, c)];
  }

  lemma {:induction false} WorkerConcludes(cfg: Config, s: State, steps: seq<Step>, w: nat, id: DocId, t: Tables, pc: Pc,
                                           first: Fault, second: Fault, text: string) returns (more: seq<Step>)
    requires Possible(cfg, ANY, s, steps) && Works(s, After(cfg, ANY, s, steps), w, id, t, pc) && (pc.Finishing? || pc.Ended?)
    ensures Possible(cfg, ANY, s, more)
    ensures var (u, ending) := ConcludeAlone(cfg, t, id, pc, first, second, text, s.now);
      Works(s, After(cfg, ANY, s, more), w, id, u, Ended(ending))
  {
    more := steps;
    if pc.Finishing? {
      more := WorkerSteps(cfg, s, more, w, id, t, pc, DoFinish(first, text));
      var (t1, next) := RunStep(cfg, t, id, pc, DoFinish(first, text), s.now);
      if next.Finishing? {
        more := WorkerSteps(cfg, s, more, w, id, t1, next, DoFinish(second, ""));
      }
    }
  }

  lemma {:induction false} WorkerStarts(cfg: Config, s: State, w: nat, id: DocId) returns (steps: seq<Step>)
    requires w !in s.workers && id in s.jobs
    ensures Possible(cfg, ANY, s, steps) && Works(s, After(cfg, ANY, s, steps), w, id, s.t, AfterRead(s.t, id))
  {
    OneStep(cfg, ANY, s, StartWorker(w, id));
    steps := WorkerSteps(cfg, s, [StartWorker(w, id)], w, id, s.t, Begin, DoRead);
  }

  lemma {:induction false} WorkerDecides(cfg: Config, s: State, steps: seq<Step>, w: nat, id: DocId, doc: Row, stages: Stages)
    returns (more: seq<Step>)
    requires Possible(cfg, ANY, s, steps) && Works(s, After(cfg, ANY, s, steps), w, id, s.t, Read(doc))
    ensures Possible(cfg, ANY, s, more)
    ensures Works(s, After(cfg, ANY, s, more), w, id, s.t.(documents := MarkedProcessing(s.t.documents, id, s.now)),
                  AfterStages(cfg, doc, stages))
  {
    more := WorkerSteps(cfg, s, steps, w, id, s.t, Read(doc), DoMark);
    more := WorkerSteps(cfg, s, more, w, id, s.t.(documents := MarkedProcessing(s.t.documents, id, s.now)), Working(doc),
                        DoStages(stages));
  }

  /** A worker's run on its own, whatever its stages and the faults of its writes, is one of the machine's runs. */
  lemma {:induction false} WorkerIsARun(cfg: Config, s: State, w: nat, id: DocId, stages: Stages, first: Fault, second: Fault, text: string)
    returns (steps: seq<Step>)
    requires w !in s.workers && id in s.jobs
    ensures Possible(cfg, ANY, s, steps)
    ensures var (t, ending) := RunAlone(cfg, s.t, id, stages, first, second, text, s.now);
      Works(s, After(cfg, ANY, s, steps), w, id, t, Ended(ending))
  {
    steps := WorkerStarts(cfg, s, w, id);
    if Processable(s.t, id) {
      var doc := s.t.documents[id];
      steps := WorkerDecides(cfg, s, steps, w, id, doc, stages);
      ReadsAndConcludes(cfg, s.t, id, stages, first, second, text, s.now);
      steps := WorkerConcludes(cfg, s, steps, w, id, s.t.(documents := MarkedProcessing(s.t.documents, id, s.now)),
                               AfterStages(cfg, doc, stages), first, second, text);
    }
  }

  // ----- deaths -----

  /** A worker that dies leaves the tables alone, or as its finish would have: the commit it was in may land. */
  lemma {:induction false} DeathLeavesAFinish(cfg: Config, s: State, w: nat, committed: bool)
    requires Enabled(ANY, s, KillWorker(w, committed))
    ensures var t := Apply(cfg, ANY, s, KillWorker(w, committed)).t;
      var finish := RunWorker(w, DoFinish(Fine, ""));
      if committed then Enabled(ANY, s, finish) && t == Apply(cfg, ANY, s, finish).t else t == s.t
  {
  }

  /** So does a request that dies. */
  lemma {:induction false} CrashLeavesAFinish(cfg: Config, s: State, id: DocId, committed: bool)
    requires Enabled(ANY, s, Crash(id, committed))
    ensures var t := Apply(cfg, ANY, s, Crash(id, committed)).t;
      var finish := if s.handlers[id].pc.Inline? then RunInline(id, DoFinish(Fine, "")) else FinishCancelled(id, Fine);
      if committed then Enabled(ANY, s, finish) && t == Apply(cfg, ANY, s, finish).t else t == s.t
  {
  }
}
