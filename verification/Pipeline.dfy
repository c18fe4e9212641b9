/** One run of `process_document` (src/ocr_engine/pipeline/pipeline.py), cut at its awaits.
  *
  * Metrics are not modelled: lines 105-107 read attributes of the result's field dictionaries, which raise as
  * written; the path modelled is the one that goes on to `finish_document`.
  */
module Pipeline {
  import opened Prelude
  import opened Statuses
  import opened Lines
  import opened Extract
  import opened Validate
  import opened Documents
  import opened Envelopes
  import opened Tables
  import opened Stores

  datatype Config = Config(schemas: map<string, Schema>, oracles: Oracles, topic: string)

  /** How download, inspection and OCR end. */
  datatype Stages =
    | Recognized(lines: seq<Line>)
    | StorageMissing(text: string)
    | BadReference(text: string)
    | Unsupported(text: string)
    | TooLarge(text: string)
    | ProviderTransient(text: string)
    | ProviderPermanent(text: string)
    | OtherError(text: string)

  datatype Ending =
    | Skipped           // no such document, or already terminal
    | Finished          // returned after finishing the document
    | RaisedTransient   // left processing, for the queue to retry
    | RaisedError       // any other exception

  /** Where a run stands. `guarded`: an exception of this finish is caught and turned into a failure;
    * `reraise`: the run raises even if this finish succeeds. */
  datatype Pc =
    | Begin
    | Read(doc: Row)
    | Working(doc: Row)
    | Finishing(doc: Row, outcome: Outcome, guarded: bool, reraise: bool)
    | Ended(ending: Ending)

  function Failure(code: string, text: string): Outcome {
    Outcome(Failed, None, None, Some(ErrorInfo(code, text)))
  }

  ghost function Success(cfg: Config, schema: Schema, lines: seq<Line>): Outcome {
    var items := Extractions(cfg.oracles, schema.fields, Rank(lines));
    var result := ResultOf(schema.fields, items);
    Outcome(StatusOf(schema.fields, items), Some(result), Some(result.avgConfidence), None)
  }

  // ----- the steps -----

  function AfterRead(t: Tables, id: DocId): Pc {
    if id !in t.documents then Ended(Skipped)
    else if t.documents[id].status !in {Queued, Processing} then Ended(Skipped)
    else Read(t.documents[id])
  }

  /** The error code, message and re-raising of each way the stages can fail for good. */
  function Refusal(stages: Stages): Option<(string, string, bool)> {
    match stages
    case Recognized(_) => None
    case StorageMissing(text) => Some(("STORAGE_OBJECT_MISSING", text, false))
    case BadReference(text) => Some(("RESOURCE_LIMIT", text, false))
    case Unsupported(text) => Some(("UNSUPPORTED_FILE_TYPE", text, false))
    case TooLarge(text) => Some(("RESOURCE_LIMIT", text, false))
    case ProviderTransient(_) => None
    case ProviderPermanent(text) => Some(("INTERNAL", text, false))
    case OtherError(text) => Some(("INTERNAL", text, true))
  }

  /** The message of a document whose schema is not among those loaded. */
  function NotLoaded(docType: string): string {
    "schema '" + docType + "' not loaded"
  }

  ghost function AfterStages(cfg: Config, doc: Row, stages: Stages): Pc {
    if stages.ProviderTransient? then Ended(RaisedTransient)
    else
      match Refusal(stages)
      case Some((code, text, reraise)) => Finishing(doc, Failure(code, text), false, reraise)
      case None =>
        if doc.submission.docType in cfg.schemas
        then Finishing(doc, Success(cfg, cfg.schemas[doc.submission.docType], stages.lines), true, false)
        else Finishing(doc, Failure("INTERNAL", NotLoaded(doc.submission.docType)), false, false)
  }

  /** The tables after a finish: the event echoes the submission the run read. */
  function FinishTables(cfg: Config, t: Tables, id: DocId, doc: Row, o: Outcome, now: Time): Tables {
    Concluded(t, id, o, EnvelopeOf(id, doc.submission, o.status, o.result, o.error, |t.outbox|, now), cfg.topic,
             doc.submission.traceId, now)
  }

  function AfterFinish(pc: Pc, fault: Fault, text: string): Pc
    requires pc.Finishing?
  {
    if fault.Fine? then Ended(if pc.reraise then RaisedError else Finished)
    else if pc.guarded then Finishing(pc.doc, Failure("INTERNAL", text), false, true)
    else Ended(RaisedError)
  }

  // ----- a run on its own -----

  /** From a stages' decision to the end, without interference. `text` is the message of a first finish that raises. */
  ghost function ConcludeAlone(cfg: Config, t: Tables, id: DocId, pc: Pc, first: Fault, second: Fault, text: string,
                               now: Time): (Tables, Ending)
    requires pc.Finishing? || pc.Ended?
  {
    match pc
    case Ended(e) => (t, e)
    case Finishing(doc, o, _, _) =>
      var t1 := if first.RollsBack? then t else FinishTables(cfg, t, id, doc, o, now);
      match AfterFinish(pc, first, text)
      case Finishing(_, o2, _, _) =>
        (if second.RollsBack? then t1 else FinishTables(cfg, t1, id, doc, o2, now), RaisedError)
      case Ended(e) => (t1, e)
  }

  /** A whole run without interference: its tables and ending. */
  ghost function RunAlone(cfg: Config, t: Tables, id: DocId, stages: Stages, first: Fault, second: Fault, text: string,
                          now: Time): (Tables, Ending) {
    match AfterRead(t, id)
    case Read(doc) =>
      ConcludeAlone(cfg, t.(documents := MarkedProcessing(t.documents, id, now)), id, AfterStages(cfg, doc, stages),
                    first, second, text, now)
    case _ => (t, Skipped)
  }

  /** An await at which a run is cancelled; its statement may have landed. */
  datatype Stop = AtRead | AtMark(landed: bool) | AtStages | AtFinish(landed: bool) | AtFailure(landed: bool)

  /** Whether a run gets to that await: to its first finish, or to the failure it writes when a success's finish raised. */
  ghost predicate StopsAt(cfg: Config, t: Tables, id: DocId, stages: Stages, first: Fault, stop: Stop) {
    match stop
    case AtRead => true
    case AtMark(_) => Processable(t, id)
    case AtStages => Processable(t, id)
    case AtFinish(_) => Processable(t, id) && AfterStages(cfg, t.documents[id], stages).Finishing?
    case AtFailure(_) => Processable(t, id) && FailsOver(AfterStages(cfg, t.documents[id], stages), first)
  }

  predicate FailsOver(pc: Pc, first: Fault) {
    pc.Finishing? && pc.guarded && !first.Fine?
  }

  ghost function FinishUntil(cfg: Config, t: Tables, id: DocId, pc: Pc, first: Fault, text: string, stop: Stop, now: Time): Tables
    requires pc.Finishing?
  {
    if stop.AtFailure? then
      var t1 := if first.RollsBack? then t else FinishTables(cfg, t, id, pc.doc, pc.outcome, now);
      if stop.landed then FinishTables(cfg, t1, id, pc.doc, Failure("INTERNAL", text), now) else t1
    else if stop.AtFinish? && stop.landed then FinishTables(cfg, t, id, pc.doc, pc.outcome, now)
    else t
  }

  /** The tables where a run is cut short. */
  ghost function TablesAt(cfg: Config, t: Tables, id: DocId, stages: Stages, first: Fault, text: string, stop: Stop, now: Time): Tables
    requires StopsAt(cfg, t, id, stages, first, stop)
  {
    var marked := t.(documents := MarkedProcessing(t.documents, id, now));
    match stop
    case AtRead => t
    case AtMark(landed) => if landed then marked else t
    case AtStages => marked
    case _ => FinishUntil(cfg, marked, id, AfterStages(cfg, t.documents[id], stages), first, text, stop, now)
  }

  /** The part of a run inside its try block; None where it is cancelled. */
  ghost function ConcludeUntil(cfg: Config, t: Tables, id: DocId, pc: Pc, first: Fault, second: Fault, text: string,
                               stop: Option<Stop>, now: Time): (Tables, Option<Ending>)
    requires pc.Finishing? || pc.Ended?
  {
    if stop.Some? && ((stop.value.AtFinish? && pc.Finishing?) || (stop.value.AtFailure? && FailsOver(pc, first)))
    then (FinishUntil(cfg, t, id, pc, first, text, stop.value, now), None)
    else
      var (u, ending) := ConcludeAlone(cfg, t, id, pc, first, second, text, now);
      (u, Some(ending))
  }

  /** A whole run without interference, cancelled at `stop` if it gets there. */
  ghost function RunUntil(cfg: Config, t: Tables, id: DocId, stages: Stages, first: Fault, second: Fault, text: string,
                          stop: Option<Stop>, now: Time): (Tables, Option<Ending>)
  {
    if stop.Some? && StopsAt(cfg, t, id, stages, first, stop.value)
    then (TablesAt(cfg, t, id, stages, first, text, stop.value, now), None)
    else
      var (u, ending) := RunAlone(cfg, t, id, stages, first, second, text, now);
      (u, Some(ending))
  }

  /** `process_document`, with the stages' result, the faults of its writes and a cancellation given; None if it is
    * cancelled. */
  method ProcessDocument(store: Store, cfg: Config, id: DocId, stages: Stages, first: Fault, second: Fault, text: string,
                         stop: Option<Stop>) returns (ending: Option<Ending>)
    requires store.Valid()
    modifies store`documents, store`outbox
    ensures store.Valid()
    ensures (store.Contents(), ending) ==
      RunUntil(cfg, old(store.Contents()), id, stages, first, second, text, stop, old(store.clock))
  {
    if stop == Some(AtRead) {
      return None;
    }
    var found := store.GetDocument(id);
    if found.None? {
      return Some(Skipped);
    }
    if found.value.status !in {Queued, Processing} {
      return Some(Skipped);
    }
    ending := ProcessFound(store, cfg, id, found.value, stages, first, second, text, stop);
  }

  method ProcessFound(store: Store, cfg: Config, id: DocId, doc: Row, stages: Stages, first: Fault, second: Fault, text: string,
                      stop: Option<Stop>) returns (ending: Option<Ending>)
    requires store.Valid() && Processable(store.Contents(), id) && doc == store.documents[id] && stop != Some(AtRead)
    modifies store`documents, store`outbox
    ensures store.Valid()
    ensures (store.Contents(), ending) ==
      RunUntil(cfg, old(store.Contents()), id, stages, first, second, text, stop, old(store.clock))
  {
    ghost var t := store.Contents();
    if stop == Some(AtMark(false)) {
      StopsEarly(cfg, t, id, stages, first, second, text, stop.value, store.clock);
      return None;
    }
    store.MarkProcessing(id);
    assert store.Contents() == old(store.Contents()).(documents := MarkedProcessing(old(store.documents), id, store.clock));
    if stop == Some(AtMark(true)) || stop == Some(AtStages) {
      StopsEarly(cfg, t, id, stages, first, second, text, stop.value, store.clock);
      return None;
    }
    ReadsAndRuns(cfg, t, id, stages, first, second, text, stop, store.clock);
    ending := RunStages(store, cfg, id, doc, stages, first, second, text, stop);
  }

  lemma StopsEarly(cfg: Config, t: Tables, id: DocId, stages: Stages, first: Fault, second: Fault, text: string, stop: Stop,
                   now: Time)
    requires Processable(t, id) && (stop.AtMark? || stop.AtStages?)
    ensures RunUntil(cfg, t, id, stages, first, second, text, Some(stop), now) ==
      (if stop == AtMark(false) then t else t.(documents := MarkedProcessing(t.documents, id, now)), None)
  {
  }

  lemma ReadsAndRuns(cfg: Config, t: Tables, id: DocId, stages: Stages, first: Fault, second: Fault, text: string,
                     stop: Option<Stop>, now: Time)
    requires Processable(t, id) && (stop.Some? ==> stop.value.AtFinish? || stop.value.AtFailure?)
    ensures AfterStages(cfg, t.documents[id], stages).Finishing? || AfterStages(cfg, t.documents[id], stages).Ended?
    ensures RunUntil(cfg, t, id, stages, first, second, text, stop, now) ==
      ConcludeUntil(cfg, t.(documents := MarkedProcessing(t.documents, id, now)), id,
                    AfterStages(cfg, t.documents[id], stages), first, second, text, stop, now)
  {
  }

  /** The part of the run inside its try block. */
  method RunStages(store: Store, cfg: Config, id: DocId, doc: Row, stages: Stages, first: Fault, second: Fault, text: string,
                   stop: Option<Stop>) returns (ending: Option<Ending>)
    requires store.Valid() && (stop.Some? ==> stop.value.AtFinish? || stop.value.AtFailure?)
    modifies store`documents, store`outbox
    ensures store.Valid()
    ensures (store.Contents(), ending) ==
      ConcludeUntil(cfg, old(store.Contents()), id, AfterStages(cfg, doc, stages), first, second, text, stop, old(store.clock))
  {
    if stages.ProviderTransient? {
      return Some(RaisedTransient);
    }
    var refusal := Refusal(stages);
    var cut := if stop.Some? && stop.value.AtFinish? then Some(stop.value.landed) else None;
    if refusal.Some? {
      var (code, message, reraise) := refusal.value;
      Unguarded(cfg, store.Contents(), id, doc, Failure(code, message), reraise, first, second, text, stop, store.clock);
      ending := Fail(store, cfg, id, doc, code, message, reraise, first, cut);
    } else if doc.submission.docType !in cfg.schemas {
      Unguarded(cfg, store.Contents(), id, doc, Failure("INTERNAL", NotLoaded(doc.submission.docType)), false, first, second, text, stop, store.clock);
      ending := Fail(store, cfg, id, doc, "INTERNAL", NotLoaded(doc.submission.docType), false, first, cut);
    } else {
      ending := Succeed(store, cfg, id, doc, stages.lines, first, second, text, stop);
    }
  }

  /** A failure is written once. */
  lemma Unguarded(cfg: Config, t: Tables, id: DocId, doc: Row, o: Outcome, reraise: bool, first: Fault, second: Fault, text: string,
                  stop: Option<Stop>, now: Time)
    ensures var cut := if stop.Some? && stop.value.AtFinish? then Some(stop.value.landed) else None;
      ConcludeUntil(cfg, t, id, Finishing(doc, o, false, reraise), first, second, text, stop, now) ==
        (if (if cut.Some? then !cut.value else first.RollsBack?) then t else FinishTables(cfg, t, id, doc, o, now),
         if cut.Some? then None else Some(if first.Fine? && !reraise then Finished else RaisedError))
  {
  }

  /** Extraction, validation and the finish of the success path; a finish that raises fails the document. */
  method Succeed(store: Store, cfg: Config, id: DocId, doc: Row, lines: seq<Line>, first: Fault, second: Fault, text: string,
                 stop: Option<Stop>) returns (ending: Option<Ending>)
    requires store.Valid() && doc.submission.docType in cfg.schemas
    requires stop.Some? ==> stop.value.AtFinish? || stop.value.AtFailure?
    modifies store`documents, store`outbox
    ensures store.Valid()
    ensures (store.Contents(), ending) ==
      ConcludeUntil(cfg, old(store.Contents()), id, AfterStages(cfg, doc, Recognized(lines)), first, second, text, stop,
                    old(store.clock))
  {
    var schema := cfg.schemas[doc.submission.docType];
    var extracted := ExtractFields(cfg.oracles, schema, lines);
    var built := BuildResult(schema, extracted);
    var (result, status) := built.value;
    var o := Outcome(status, Some(result), Some(result.avgConfidence), None);
    var cut := if stop.Some? && stop.value.AtFinish? then Some(stop.value.landed) else None;
    var raised := Finish(store, cfg, id, doc, o, first, cut);
    if cut.Some? {
      return None;
    }
    ending := Some(Finished);
    if raised {
      var cutFailure := if stop.Some? && stop.value.AtFailure? then Some(stop.value.landed) else None;
      ending := Fail(store, cfg, id, doc, "INTERNAL", text, true, second, cutFailure);
    }
  }

  method Fail(store: Store, cfg: Config, id: DocId, doc: Row, code: string, message: string, reraise: bool,
              fault: Fault, cut: Option<bool>)
    returns (ending: Option<Ending>)
    requires store.Valid()
    modifies store`documents, store`outbox
    ensures store.Valid()
    ensures store.Contents() ==
      if (if cut.Some? then !cut.value else fault.RollsBack?) then old(store.Contents())
      else FinishTables(cfg, old(store.Contents()), id, doc, Failure(code, message), old(store.clock))
    ensures ending == if cut.Some? then None else Some(if fault.Fine? && !reraise then Finished else RaisedError)
  {
    var raised := Finish(store, cfg, id, doc, Failure(code, message), fault, cut);
    ending := if cut.Some? then None else Some(if raised || reraise then RaisedError else Finished);
  }

  /** A finish, perhaps cut short by a cancellation before or after its commit. */
  method Finish(store: Store, cfg: Config, id: DocId, doc: Row, o: Outcome, fault: Fault, cut: Option<bool>)
    returns (raised: bool)
    requires store.Valid()
    modifies store`documents, store`outbox
    ensures store.Valid() && raised == (cut.None? && !fault.Fine?)
    ensures store.Contents() ==
      if (if cut.Some? then !cut.value else fault.RollsBack?) then old(store.Contents())
      else FinishTables(cfg, old(store.Contents()), id, doc, o, old(store.clock))
  {
    if cut == Some(false) {
      return false;
    }
    var payload := BuildEnvelope(id, doc.submission, o.status, o.result, o.error, |store.outbox|, store.clock);
    raised := store.FinishDocument(id, o, payload, cfg.topic, doc.submission.traceId, if cut.Some? then Fine else fault);
  }

  // ----- what a run on its own does -----

  /** Everything a run may decide to write is a success with its result or a failure with its error. */
  lemma OutcomesAreWellFormed(cfg: Config, doc: Row, stages: Stages)
    ensures var pc := AfterStages(cfg, doc, stages);
      match pc
      case Finishing(d, o, guarded, reraise) => d == doc && o.WellFormed() && (guarded ==> !reraise)
      case Ended(e) => e == RaisedTransient && stages.ProviderTransient?
      case _ => false
  {
  }

  predicate Processable(t: Tables, id: DocId) {
    id in t.documents && t.documents[id].status in {Queued, Processing}
  }

  /** How many events a run on its own writes: none when it has nothing to do or retries; otherwise one for each of
    * its finishes that reaches the database. The second finish happens when the first, on the success path, raises. */
  ghost function EventsWritten(cfg: Config, t: Tables, id: DocId, stages: Stages, first: Fault, second: Fault): nat {
    if !Processable(t, id) || stages.ProviderTransient? then 0
    else
      var succeeding := stages.Recognized? && t.documents[id].submission.docType in cfg.schemas;
      (if first.RollsBack? then 0 else 1)
      + (if succeeding && !first.Fine? && !second.RollsBack? then 1 else 0)
  }

  /** `u` is `t` with further events of `id` only, and no other row changed. */
  ghost predicate Extends(t: Tables, u: Tables, id: DocId, n: nat) {
    && |u.outbox| == |t.outbox| + n && u.outbox[..|t.outbox|] == t.outbox
    && u.documents.Keys == t.documents.Keys
    && (forall d :: d in t.documents && d != id ==> u.documents[d] == t.documents[d])
    && (id in t.documents ==> u.documents[id].submission == t.documents[id].submission)
    && (forall i :: |t.outbox| <= i < |u.outbox| ==> u.outbox[i].docId == id)
  }

  /** The document's row is terminal and agrees with the last event of the outbox. */
  predicate Announced(t: Tables, id: DocId) {
    && id in t.documents && t.documents[id].status.Terminal()
    && t.outbox != [] && Agrees(t.documents[id], t.outbox[|t.outbox| - 1].payload)
  }

  /** A run on its own leaves the document untouched, or processing without an event, or terminal with its new
    * events, the last of which agrees with the row. It writes two events exactly when the answer to the commit of
    * a success is lost and the failure written over it commits. */
  lemma RunAloneEnds(cfg: Config, t: Tables, id: DocId, stages: Stages, first: Fault, second: Fault, text: string, now: Time)
    ensures var (u, ending) := RunAlone(cfg, t, id, stages, first, second, text, now);
      var n := EventsWritten(cfg, t, id, stages, first, second);
      && Extends(t, u, id, n)
      && (ending == Skipped <==> !Processable(t, id))
      && (ending == Skipped ==> u == t)
      && (ending == RaisedTransient <==> Processable(t, id) && stages.ProviderTransient?)
      && (Processable(t, id) && n == 0 ==> u.documents[id].status == Processing && ending in {RaisedTransient, RaisedError})
      && (n > 0 ==> Announced(u, id))
      && (n == 2 <==> Processable(t, id) && stages.Recognized? && t.documents[id].submission.docType in cfg.schemas
                      && first.CommitsThenRaises? && !second.RollsBack?)
  {
    if Processable(t, id) {
      var doc := t.documents[id];
      OutcomesAreWellFormed(cfg, doc, stages);
      var t1 := t.(documents := MarkedProcessing(t.documents, id, now));
      var pc := AfterStages(cfg, doc, stages);
      if pc.Finishing? {
        ConcludeEnds(cfg, t1, id, pc, first, second, text, now);
      }
    }
  }

  /** Where a run is cut short: the row is as found, or processing without an event, or terminal and announced once more for
    * each finish that landed. */
  lemma {:induction false} CutRunEnds(cfg: Config, t: Tables, id: DocId, stages: Stages, first: Fault, text: string, stop: Stop, now: Time)
    requires StopsAt(cfg, t, id, stages, first, stop)
    ensures var u := TablesAt(cfg, t, id, stages, first, text, stop, now);
      match stop
      case AtRead => u == t
      case AtMark(false) => u == t
      case AtMark(true) => Extends(t, u, id, 0) && u.documents[id].status == Processing
      case AtStages => Extends(t, u, id, 0) && u.documents[id].status == Processing
      case AtFinish(landed) =>
        if landed then Extends(t, u, id, 1) && Announced(u, id)
        else Extends(t, u, id, 0) && u.documents[id].status == Processing
      case AtFailure(landed) =>
        var sub := t.documents[id].submission;
        && (landed ==> ToldFailed(cfg, u, id, sub, "INTERNAL", text, now))
        && if first.RollsBack? && !landed then Extends(t, u, id, 0) && u.documents[id].status == Processing
           else Extends(t, u, id, if first.RollsBack? || !landed then 1 else 2) && Announced(u, id)
  {
    if stop.AtFinish? || stop.AtFailure? {
      OutcomesAreWellFormed(cfg, t.documents[id], stages);
      FinishCutShort(cfg, t.(documents := MarkedProcessing(t.documents, id, now)), id, AfterStages(cfg, t.documents[id], stages), first,
                     text, stop, now);
    }
  }

  lemma {:induction false} FinishCutShort(cfg: Config, t: Tables, id: DocId, pc: Pc, first: Fault, text: string, stop: Stop, now: Time)
    requires pc.Finishing? && pc.outcome.WellFormed() && (stop.AtFinish? || stop.AtFailure?)
    requires id in t.documents && t.documents[id].submission == pc.doc.submission
    ensures var u := FinishUntil(cfg, t, id, pc, first, text, stop, now);
      if stop.AtFinish? then (if stop.landed then Extends(t, u, id, 1) && Announced(u, id) else u == t)
      else
        && (stop.landed ==> ToldFailed(cfg, u, id, pc.doc.submission, "INTERNAL", text, now))
        && if first.RollsBack? && !stop.landed then u == t
           else Extends(t, u, id, if first.RollsBack? || !stop.landed then 1 else 2) && Announced(u, id)
  {
    FinishAgrees(cfg, t, id, pc.doc, pc.outcome, now);
    if stop.AtFailure? {
      var once := if first.RollsBack? then t else FinishTables(cfg, t, id, pc.doc, pc.outcome, now);
      FinishAgrees(cfg, once, id, pc.doc, Failure("INTERNAL", text), now);
      FinishTells(cfg, once, id, pc.doc, Failure("INTERNAL", text), now);
    }
  }

  /** The document failed with this code and message, now, and the last event says so on the configured topic. */
  predicate ToldFailed(cfg: Config, u: Tables, id: DocId, sub: Submission, code: string, message: string, now: Time) {
    && id in u.documents && u.outbox != []
    && var r := u.documents[id];
    && r.status == Failed && r.result == None && r.avgConfidence == None
    && r.errorCode == Some(code) && r.errorMessage == Some(message) && r.processedAt == Some(now)
    && var e := u.outbox[|u.outbox| - 1];
    && e.docId == id && e.topic == cfg.topic && e.traceId == sub.traceId && e.createdAt == now
    && e.payload.documentId == id && e.payload.eventType == "document.processed" && e.payload.schemaVersion == "1.0"
    && e.payload.error == Present(ErrorInfo(code, message)) && e.payload.data == Absent
  }

  /** The document succeeded with this status and result, now, and the last event says so. */
  predicate ToldDone(cfg: Config, u: Tables, id: DocId, sub: Submission, status: Status, result: DocumentResult, now: Time) {
    && id in u.documents && u.outbox != []
    && var r := u.documents[id];
    && r.status == status && r.result == Some(result) && r.avgConfidence == Some(result.avgConfidence)
    && r.errorCode == None && r.errorMessage == None && r.processedAt == Some(now)
    && var e := u.outbox[|u.outbox| - 1];
    && e.docId == id && e.topic == cfg.topic && e.traceId == sub.traceId && e.createdAt == now
    && e.payload.documentId == id && e.payload.eventType == "document.processed" && e.payload.schemaVersion == "1.0"
    && e.payload.data == Present(result) && e.payload.error == Absent
  }

  lemma {:induction false} FinishTells(cfg: Config, t: Tables, id: DocId, doc: Row, o: Outcome, now: Time)
    requires id in t.documents
    ensures var u := FinishTables(cfg, t, id, doc, o, now);
      && (o.status == Failed && o.result == None && o.avgConfidence == None && o.error.Some? ==>
            ToldFailed(cfg, u, id, doc.submission, o.error.value.code, o.error.value.message, now))
      && (o.status in {Completed, NeedsReview} && o.result.Some? && o.error == None && o.avgConfidence == Some(o.result.value.avgConfidence) ==>
            ToldDone(cfg, u, id, doc.submission, o.status, o.result.value, now))
  {
  }

  /** What becomes of a document its stages refuse, or whose schema is not loaded, when the finish commits: which code and
    * message each refusal gets, in the row and in the event, and how the run ends. */
  lemma {:induction false} RefusalsAreTold(cfg: Config, t: Tables, id: DocId, stages: Stages, first: Fault, second: Fault, text: string,
                                           now: Time)
    requires Processable(t, id) && !first.RollsBack?
    ensures var (u, ending) := RunAlone(cfg, t, id, stages, first, second, text, now);
      var sub := t.documents[id].submission;
      && match stages
         case StorageMissing(m) => ToldFailed(cfg, u, id, sub, "STORAGE_OBJECT_MISSING", m, now)
         case BadReference(m) => ToldFailed(cfg, u, id, sub, "RESOURCE_LIMIT", m, now)
         case Unsupported(m) => ToldFailed(cfg, u, id, sub, "UNSUPPORTED_FILE_TYPE", m, now)
         case TooLarge(m) => ToldFailed(cfg, u, id, sub, "RESOURCE_LIMIT", m, now)
         case ProviderPermanent(m) => ToldFailed(cfg, u, id, sub, "INTERNAL", m, now)
         case OtherError(m) => ToldFailed(cfg, u, id, sub, "INTERNAL", m, now)
         case ProviderTransient(_) => u.outbox == t.outbox && ending == RaisedTransient
         case Recognized(_) => sub.docType !in cfg.schemas ==>
           ToldFailed(cfg, u, id, sub, "INTERNAL", "schema '" + sub.docType + "' not loaded", now)
    ensures first.Fine? ==>
      RunAlone(cfg, t, id, stages, first, second, text, now).1 ==
        if stages.ProviderTransient? then RaisedTransient else if stages.OtherError? then RaisedError else Finished
  {
    var doc := t.documents[id];
    var marked := t.(documents := MarkedProcessing(t.documents, id, now));
    ReadsAndConcludes(cfg, t, id, stages, first, second, text, now);
    var pc := AfterStages(cfg, doc, stages);
    if pc.Finishing? {
      FinishTells(cfg, marked, id, doc, pc.outcome, now);
    }
  }

  lemma {:induction false} ReadsAndConcludes(cfg: Config, t: Tables, id: DocId, stages: Stages, first: Fault, second: Fault, text: string,
                                             now: Time)
    requires Processable(t, id)
    ensures AfterStages(cfg, t.documents[id], stages).Finishing? || AfterStages(cfg, t.documents[id], stages).Ended?
    ensures RunAlone(cfg, t, id, stages, first, second, text, now) ==
      ConcludeAlone(cfg, t.(documents := MarkedProcessing(t.documents, id, now)), id, AfterStages(cfg, t.documents[id], stages),
                    first, second, text, now)
  {
  }

  /** What becomes of a document that is recognized and whose schema is loaded: the result and status that validation
    * gives it, or, if its finish raises, a failure with the exception's text; it is completed only without issues. */
  lemma {:induction false} SuccessIsTold(cfg: Config, t: Tables, id: DocId, lines: seq<Line>, first: Fault, second: Fault, text: string,
                                         now: Time)
    requires Processable(t, id) && t.documents[id].submission.docType in cfg.schemas
    ensures var (u, ending) := RunAlone(cfg, t, id, Recognized(lines), first, second, text, now);
      var sub := t.documents[id].submission;
      var fields := cfg.schemas[sub.docType].fields;
      var items := Extractions(cfg.oracles, fields, Rank(lines));
      && (first.Fine? ==> ToldDone(cfg, u, id, sub, StatusOf(fields, items), ResultOf(fields, items), now) && ending == Finished)
      && (!first.Fine? ==> ending == RaisedError)
      && (!first.Fine? && !second.RollsBack? ==> ToldFailed(cfg, u, id, sub, "INTERNAL", text, now))
      && (first.CommitsThenRaises? && second.RollsBack? ==>
            ToldDone(cfg, u, id, sub, StatusOf(fields, items), ResultOf(fields, items), now))
      && (first.RollsBack? && second.RollsBack? ==> u.outbox == t.outbox && u.documents[id].status == Processing)
  {
    var doc := t.documents[id];
    var marked := t.(documents := MarkedProcessing(t.documents, id, now));
    ReadsAndConcludes(cfg, t, id, Recognized(lines), first, second, text, now);
    var pc := AfterStages(cfg, doc, Recognized(lines));
    FinishTells(cfg, marked, id, doc, pc.outcome, now);
    var once := if first.RollsBack? then marked else FinishTables(cfg, marked, id, doc, pc.outcome, now);
    FinishTells(cfg, once, id, doc, Failure("INTERNAL", text), now);
  }

  lemma ConcludeEnds(cfg: Config, t: Tables, id: DocId, pc: Pc, first: Fault, second: Fault, text: string, now: Time)
    requires pc.Finishing? && pc.outcome.WellFormed() && id in t.documents
    requires t.documents[id].submission == pc.doc.submission
    ensures var (u, ending) := ConcludeAlone(cfg, t, id, pc, first, second, text, now);
      var n := (if first.RollsBack? then 0 else 1) + (if pc.guarded && !first.Fine? && !second.RollsBack? then 1 else 0);
      && Extends(t, u, id, n) && ending in {Finished, RaisedError}
      && (n == 0 ==> u == t && ending == RaisedError)
      && (n > 0 ==> Announced(u, id))
  {
    var doc := pc.doc;
    FinishAgrees(cfg, t, id, doc, pc.outcome, now);
    var t1 := if first.RollsBack? then t else FinishTables(cfg, t, id, doc, pc.outcome, now);
    FinishAgrees(cfg, t1, id, doc, Failure("INTERNAL", text), now);
  }

  /** A terminal row and the payload of the event that announces it. */
  predicate Agrees(r: Row, e: Envelope) {
    && ExactlyOne(e)
    && e.idempotencyKey == r.submission.key && e.externalRef == r.submission.externalRef
    && e.callerId == r.submission.callerId
    && match r.status
       case Failed => r.result.None? && e.error.Present?
                      && r.errorCode == Some(e.error.value.code) && r.errorMessage == Some(e.error.value.message)
       case Completed => r.errorCode.None? && r.result.Some? && e.data == Present(r.result.value)
       case NeedsReview => r.errorCode.None? && r.result.Some? && e.data == Present(r.result.value)
       case _ => false
  }

  lemma FinishAgrees(cfg: Config, t: Tables, id: DocId, doc: Row, o: Outcome, now: Time)
    requires o.WellFormed()
    ensures var u := FinishTables(cfg, t, id, doc, o, now);
      && Extends(t, u, id, 1) && ExactlyOne(u.outbox[|t.outbox|].payload)
      && (id in t.documents && t.documents[id].submission == doc.submission ==> Announced(u, id))
  {
    ExactlyOneIff(id, doc.submission, o.status, o.result, o.error, |t.outbox|, now);
  }
}
