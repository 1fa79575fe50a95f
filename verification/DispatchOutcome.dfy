/** What a dispatch records, answers and leaves behind, told from the worker's response, the appends and the live
    tables alone, and so when it succeeds: its own checks never stand in the way once the intent is pending. */
module DispatchOutcome {
  import opened Strings
  import opened Like
  import opened Json
  import opened Ledger
  import opened State
  import opened Payloads
  import opened Kernels
  import opened Appends
  import opened Frames
  import opened Invariant
  import opened Events
  import opened IntentSteps
  import opened RunSteps
  import opened DispatchSteps
  import opened Guarantees
  import opened Effects
  import Inbox
  import Lifecycle

  // ---------------------------------------------------------------- the worker's response

  /** The worker returned a result, and the result reports success. */
  predicate Succeeded(x: Response) {
    x.Returned? && x.result.success
  }

  /** The error recorded: that of the result, or that there was none. */
  function Trouble(x: Response): Option<string> {
    if x.Returned? then x.result.error else Some("UNEXPECTED")
  }

  function Message(x: Response): string {
    if x.Returned? then x.result.message else x.message
  }

  /** What the worker returned; nothing if it raised or returned no result. */
  function Outputs(x: Response): Py {
    if x.Returned? then x.result.outputs else PDict([])
  }

  /** The outputs have a canonical form. */
  predicate Recordable(x: Response) {
    x.Returned? ==> Serial(x.result.outputs)
  }

  lemma InvokedIs(x: Response)
    ensures InvokeWorker(x) == WorkerResult(Succeeded(x), Outputs(x), Trouble(x), Message(x))
  {
  }

  lemma ArtifactRecordable(db: Db, j: Job, w: string, payload: Json, s: Snapshots)
    ensures ResultArtifact(db, j, w, payload, s).Some? <==> Recordable(j.response)
    ensures Recordable(j.response) <==> Normalize(db.cfg.nfc, Outputs(j.response)).Some?
  {
    assert Serial(PDict([]));
    hide ResultContent, Artifact, WithArtifact, Normalize, Serial;
    InvokedIs(j.response);
    NormalizeAccepts(db.cfg.nfc, Outputs(j.response));
  }

  // ---------------------------------------------------------------- the payload can be read

  lemma {:induction false} SubmittedFound(es: History, i: string)
    requires Inbox.AllIntentShaped(es) && Exact(es, "intent_id", i) && i in Inbox.LastTypes(es) && Inbox.LastTypes(es)[i] == "intent_submitted"
    ensures Inbox.FirstSubmission(es, i).Some?
  {
    hide Refers, Mentioned;
    var front, e := es[..|es|-1], es[|es|-1];
    ExactFront(es, "intent_id", i);
    assert Inbox.IntentShaped(e);
    if Inbox.IsIntentEvent(e.eventType) && Inbox.IntentId(e) == Some(i) {
      assert Mentioned(e, "intent_id", i);
    } else {
      SubmittedFound(front, i);
    }
  }

  lemma PendingReadable(db: Db, i: string)
    requires Inv(db) && i in db.cfg.ids && Inbox.StatusQuery(db.events, i) == Some("PENDING")
    ensures Inbox.ReadPayload(db.events, i).Some?
  {
    assert Holds(LegalHistory, db);
    hide Good, Exact, FilesBacked, Accounted, RegistryKnown, Sane, Synced, Inbox.LastTypes, Inbox.StatusQuery,
      Inbox.FirstSubmission, NoIdKeys, Inbox.AllIntentShaped;
    IntentFacts(db, i);
    StatusNames(Inbox.LastTypes(db.events)[i]);
    GoodShaped(db.cfg, db.events);
    GoodExact(db.cfg, db.events, "intent_id", i);
    SubmittedFound(db.events, i);
    FirstIsSubmission(db.events, i);
    GoodQuiet(db.cfg, db.events, Inbox.FirstSubmission(db.events, i).value);
  }

  // ---------------------------------------------------------------- the rows

  /** The status and the event type that close the intent. */
  function Closing(x: Response): string {
    if Succeeded(x) then "COMPLETED" else "FAILED"
  }

  function ClosingType(x: Response): string {
    if Succeeded(x) then "intent_completed" else "intent_failed"
  }

  function Shown(nfc: Normalizer, o: Option<string>): Json {
    if o.Some? then Str(nfc(o.value)) else Null
  }

  /** The document of the terminal event. */
  function ClosingDoc(nfc: Normalizer, i: string, w: string, status: string, error: Option<string>, message: string): Fields {
    map["intent_id" := Str(i), "status" := Str(status), "worker_name" := Str(w),
        "error_type" := Shown(nfc, error), "error_message" := Str(nfc(message))]
  }

  /** What the artifact of a run holds: the payload given, the outputs in canonical form and the result. */
  function ArtifactContent(nfc: Normalizer, j: Job, w: string, inputs: Json, s: Snapshots): Fields {
    var outputs := match Normalize(nfc, Outputs(j.response)) case Some(o) => o case None => Null;
    var content := map[
      "intent_id" := Str(j.intentId), "worker_name" := Str(w), "inputs" := inputs, "outputs" := outputs,
      "worker_success" := Bool(Succeeded(j.response)), "error_type" := Shown(nfc, Trouble(j.response)),
      "error_message" := Str(nfc(Message(j.response)))];
    if s.NoSnapshots? then content
    else content["provenance_snapshot_id" := Str(s.provenance)]["environment_snapshot_id" := Str(s.environment)]
  }

  // ---------------------------------------------------------------- from the run on

  /** How many of the four rows from the run on are recorded: up to the first append that fails, or to outputs that
      have no canonical form. */
  function Reached(j: Job): nat {
    if !j.run.ok then 0
    else if !j.running.ok then 1
    else if !Recordable(j.response) || !j.artifact.ok then 2
    else if !j.final.ok then 3
    else 4
  }

  function RunLeft(runs: RunTable, j: Job, k: nat): RunTable {
    if k == 0 then runs
    else if k == 1 then runs[j.runId := RunRow("run_created", j.run.eventId, j.run.now)]
    else if k == 2 then runs[j.runId := RunRow("state_running", j.running.eventId, j.running.now)]
    else runs[j.runId := RunRow("artifact_written", j.artifact.eventId, j.artifact.now)]
  }

  /** The rows of the run and of the terminal event, as far as they were recorded, after `n` others. */
  predicate RunRows(nfc: Normalizer, es: History, n: nat, k: nat, j: Job, w: string, inputs: Json, s: Snapshots)
    requires n + k <= |es|
  {
    && (k >= 1 ==> Tells(es[n], j.run, "run_created", map["run_id" := Str(j.runId), "operation_id" := Str(j.intentId)], Some(j.intentId), None))
    && (k >= 2 ==> Tells(es[n+1], j.running, "state_running", map["run_id" := Str(j.runId)], None, None))
    && (k >= 3 ==> Tells(es[n+2], j.artifact, "artifact_written",
                         map["run_id" := Str(j.runId), "artifact" := Typed("worker_result", ArtifactContent(nfc, j, w, inputs, s))], None, None))
    && (k >= 4 ==> Tells(es[n+3], j.final, ClosingType(j.response),
                         ClosingDoc(nfc, j.intentId, w, Closing(j.response), Trouble(j.response), Message(j.response)), None, None))
  }

  /** The answer when `k` rows were recorded. */
  function Answer(j: Job, w: string, ids: seq<string>, k: nat): DispatchResult {
    if k == 4 then DispatchResult(true, Some(w), Some(Closing(j.response)), None, None, ids)
    else
      var error := if k == 2 && !Recordable(j.response) then "INVALID_PAYLOAD" else "DB_ERROR";
      DispatchResult(false, Some(w), Some("RUNNING"), Some(error), None, ids)
  }

  /** A claimed intent is run: the rows recorded, the worker invoked once the run is running, the tables and the
      answer. */
  ghost predicate Executes(db: Db, j: Job, w: string, inputs: Json, s: Snapshots, ids: seq<string>, after: Db, result: DispatchResult) {
    var n, k := |db.events|, Reached(j);
    && db.events <= after.events && |after.events| == n + k && RunRows(db.cfg.nfc, after.events, n, k, j, w, inputs, s)
    && result == Answer(j, w, ids, k)
    && after == db.(
         events := after.events, runs := RunLeft(db.runs, j, k),
         intents := if k < 4 then db.intents else db.intents[j.intentId := IntentRow(Closing(j.response), Some(w), j.final.now, j.final.eventId)],
         invoked := if k < 2 then db.invoked else db.invoked + [Invocation(j.intentId, inputs, n + 2)])
  }

  /** Artifact and terminal event: the last two rows. */
  ghost predicate Concludes(db: Db, j: Job, w: string, inputs: Json, s: Snapshots, ids: seq<string>, after: Db, result: DispatchResult) {
    var n, k := |db.events|, Reached(j) - 2;
    && Reached(j) >= 2 && db.events <= after.events && |after.events| == n + k
    && (k >= 1 ==> Tells(after.events[n], j.artifact, "artifact_written",
                         map["run_id" := Str(j.runId), "artifact" := Typed("worker_result", ArtifactContent(db.cfg.nfc, j, w, inputs, s))], None, None))
    && (k >= 2 ==> Tells(after.events[n+1], j.final, ClosingType(j.response),
                         ClosingDoc(db.cfg.nfc, j.intentId, w, Closing(j.response), Trouble(j.response), Message(j.response)), None, None))
    && result == Answer(j, w, ids, k + 2)
    && after == db.(
         events := after.events,
         runs := if k == 0 then db.runs else db.runs[j.runId := RunRow("artifact_written", j.artifact.eventId, j.artifact.now)],
         intents := if k < 2 then db.intents else db.intents[j.intentId := IntentRow(Closing(j.response), Some(w), j.final.now, j.final.eventId)])
  }

  lemma DoneIs(db: Db, i: string, w: string, x: Response, a: Attempt)
    requires Plain(db, i) && Plain(db, w)
    ensures var after := MarkDone(db, i, w, Succeeded(x), Trouble(x), Message(x), a);
      && Adds(db.events, after.events, a, ClosingType(x), ClosingDoc(db.cfg.nfc, i, w, Closing(x), Trouble(x), Message(x)), None, None)
      && after == db.(events := after.events, intents := db.intents[i := IntentRow(Closing(x), Some(w), a.now, a.eventId)])
  {
    hide NewEvent, Adds, Trouble, Message, Succeeded;
    EmitAdds(db, a, ClosingType(x), ClosingDoc(db.cfg.nfc, i, w, Closing(x), Trouble(x), Message(x)), None, None);
  }

  lemma ArtifactIs(db: Db, j: Job, w: string, inputs: Json, s: Snapshots)
    requires Plain(db, j.intentId) && Plain(db, w) && ResultArtifact(db, j, w, inputs, s).Some?
    ensures ResultArtifact(db, j, w, inputs, s) == Some(map["artifact" := Typed("worker_result", ArtifactContent(db.cfg.nfc, j, w, inputs, s))])
  {
    hide Normalize, Trouble, Message, Succeeded, Outputs, InvokeWorker;
    InvokedIs(j.response);
  }

  lemma RunTold(r: string, artifact: Json)
    ensures map["artifact" := artifact]["run_id" := Str(r)] == map["run_id" := Str(r), "artifact" := artifact]
    ensures map["run_id" := Str(r)] == (map[])["run_id" := Str(r)]
  {
  }

  lemma WrittenIs(db: Db, j: Job, w: string, inputs: Json, s: Snapshots)
    requires Inv(db) && Id(db, j.runId) && j.runId != "" && j.runId in db.runs && db.runs[j.runId].state == "state_running"
    requires Plain(db, j.intentId) && Plain(db, w)
    ensures var (after, result) := AppendLifecycle(db, j.runId, "artifact_written", ResultArtifact(db, j, w, inputs, s), j.artifact);
      if !Recordable(j.response) then
        after == db && result == LifecycleResult(false, Some("state_running"), Some("INVALID_PAYLOAD"))
      else if !j.artifact.ok then
        after == db && result == LifecycleResult(false, Some("state_running"), Some("DB_ERROR"))
      else
        && result.success
        && Adds(db.events, after.events, j.artifact, "artifact_written",
                map["run_id" := Str(j.runId), "artifact" := Typed("worker_result", ArtifactContent(db.cfg.nfc, j, w, inputs, s))], None, None)
        && after == db.(events := after.events, runs := db.runs[j.runId := RunRow("artifact_written", j.artifact.eventId, j.artifact.now)])
  {
    hide Inv, AppendLifecycle, ResultArtifact, Adds, ArtifactContent, Recordable;
    ArtifactRecordable(db, j, w, inputs, s);
    if Recordable(j.response) {
      ArtifactIs(db, j, w, inputs, s);
      RunTold(j.runId, Typed("worker_result", ArtifactContent(db.cfg.nfc, j, w, inputs, s)));
    }
    AdvanceEffectIs(db, j.runId, "artifact_written", ResultArtifact(db, j, w, inputs, s), j.artifact);
  }

  /** The run stands where its artifact may be written. */
  ghost predicate Standing(db: Db, j: Job, w: string) {
    && Inv(db) && Id(db, j.runId) && j.runId != "" && j.runId in db.runs && db.runs[j.runId].state == "state_running"
    && Plain(db, j.intentId) && Plain(db, w)
  }

  lemma ConcludeIs(db: Db, j: Job, w: string, inputs: Json, s: Snapshots, ids: seq<string>)
    requires Standing(db, j, w) && j.run.ok && j.running.ok
    ensures Concludes(db, j, w, inputs, s, ids, Conclude(db, j, w, inputs, s, ids).0, Conclude(db, j, w, inputs, s, ids).1)
  {
    hide Inv, AppendLifecycle, ResultArtifact, MarkDone, Tells, ArtifactContent, ClosingDoc, ClosingType, Closing,
      Recordable, InvokeWorker,
      OutcomeStatus, Trouble, Message, Outputs, Succeeded;
    WrittenIs(db, j, w, inputs, s);
    InvokedIs(j.response);
    ClosingIs(j.response);
    var (written, wrote) := AppendLifecycle(db, j.runId, "artifact_written", ResultArtifact(db, j, w, inputs, s), j.artifact);
    if wrote.success { DoneIs(written, j.intentId, w, j.response, j.final); }
  }

  lemma ClosingIs(x: Response)
    ensures OutcomeStatus(Succeeded(x)) == Closing(x)
  {
  }

  // ---------------------------------------------------------------- the stages put together

  lemma StoppedAtOnce(db: Db, j: Job, w: string, inputs: Json, s: Snapshots, ids: seq<string>)
    requires !j.run.ok
    ensures Executes(db, j, w, inputs, s, ids, db, Answer(j, w, ids, 0))
  {
    hide Tells, ArtifactContent, ClosingDoc;
  }

  /** The run has been created. */
  ghost predicate Created(db: Db, created: Db, j: Job) {
    && Adds(db.events, created.events, j.run, "run_created",
            map["run_id" := Str(j.runId), "operation_id" := Str(j.intentId)], Some(j.intentId), None)
    && created == db.(events := created.events, runs := db.runs[j.runId := RunRow("run_created", j.run.eventId, j.run.now)])
  }

  lemma StoppedCreated(db: Db, created: Db, j: Job, w: string, inputs: Json, s: Snapshots, ids: seq<string>)
    requires j.run.ok && !j.running.ok && Created(db, created, j)
    ensures Executes(db, j, w, inputs, s, ids, created, Answer(j, w, ids, 1))
  {
    hide Tells, ArtifactContent, ClosingDoc;
  }

  /** The run is running. */
  ghost predicate Started(created: Db, started: Db, j: Job) {
    && Adds(created.events, started.events, j.running, "state_running", map["run_id" := Str(j.runId)], None, None)
    && started == created.(events := started.events, runs := created.runs[j.runId := RunRow("state_running", j.running.eventId, j.running.now)])
  }

  lemma Upserted(runs: RunTable, r: string, x: RunRow, y: RunRow)
    ensures runs[r := x][r := y] == runs[r := y]
  {
  }

  lemma Concluded(db: Db, created: Db, started: Db, j: Job, w: string, inputs: Json, s: Snapshots, ids: seq<string>,
    after: Db, result: DispatchResult)
    requires j.run.ok && j.running.ok && Created(db, created, j) && Started(created, started, j)
    requires Concludes(Invoke(started, j.intentId, inputs), j, w, inputs, s, ids, after, result)
    ensures Executes(db, j, w, inputs, s, ids, after, result)
  {
    hide Tells, ArtifactContent, ClosingDoc, ClosingType, Closing, Answer, Recordable;
    var row := RunRow("state_running", j.running.eventId, j.running.now);
    Upserted(db.runs, j.runId, RunRow("run_created", j.run.eventId, j.run.now), row);
    Upserted(db.runs, j.runId, row, RunRow("artifact_written", j.artifact.eventId, j.artifact.now));
    assert after.events[|db.events|] == created.events[|db.events|];
    assert after.events[|db.events|+1] == started.events[|db.events|+1];
  }

  lemma NotStarted(created: Db, j: Job)
    requires Inv(created) && Id(created, j.runId) && j.runId != "" && j.runId in created.runs && created.runs[j.runId].state == "run_created"
    requires !j.running.ok
    ensures AppendLifecycle(created, j.runId, "state_running", Some(map[]), j.running) ==
      (created, LifecycleResult(false, Some("run_created"), Some("DB_ERROR")))
  {
    hide Inv, AppendLifecycle, Adds;
    AdvanceEffectIs(created, j.runId, "state_running", Some(map[]), j.running);
  }

  lemma StartedIs(created: Db, j: Job, w: string, inputs: Json, rest: seq<Attempt>)
    requires Underway(created, j, w) && NotInvoked(created, j.intentId) && Given(created, j.intentId, inputs)
    requires j.runId != "" && j.runId in created.runs && created.runs[j.runId].state == "run_created"
    requires BridgedTo(created.events, j.runId, j.intentId) && Schedule(created.events, [j.running] + rest) && j.running.ok
    ensures var (started, running) := AppendLifecycle(created, j.runId, "state_running", Some(map[]), j.running);
      running.success && Started(created, started, j) && Standing(Invoke(started, j.intentId, inputs), j, w)
  {
    hide Inv, Schedule, AppendLifecycle, BridgedTo, RunningFor, QuietValue, Given, Took, Adds;
    StartedUnderway(created, j, w, rest);
    AdvanceEffectIs(created, j.runId, "state_running", Some(map[]), j.running);
    RunTold(j.runId, Null);
    AppendFrame(created, j.runId, "state_running", Some(map[]), j.running);
    var started := AppendLifecycle(created, j.runId, "state_running", Some(map[]), j.running).0;
    GivenStays(created, started, j.intentId, inputs, j.running);
    InvokedUnderway(started, j, w, inputs);
  }

  lemma CreatedIs(db: Db, j: Job, w: string, inputs: Json, rest: seq<Attempt>)
    requires Underway(db, j, w) && Given(db, j.intentId, inputs)
    requires j.runId != "" && j.runId !in db.runs && Schedule(db.events, [j.run] + rest) && j.run.ok
    ensures var (created, run) := CreateRun(db, j.intentId, j.runId, j.run);
      && run.success && Created(db, created, j) && Underway(created, j, w) && Given(created, j.intentId, inputs)
      && created.invoked == db.invoked && BridgedTo(created.events, j.runId, j.intentId) && Schedule(created.events, rest)
  {
    hide Inv, Schedule, CreateRun, BridgedTo, RunningFor, QuietValue, Given, Took, Adds;
    CreatedUnderway(db, j, w, rest);
    CreateEffectIs(db, j.intentId, j.runId, j.run);
    CreateFrame(db, j.intentId, j.runId, j.run);
    GivenStays(db, CreateRun(db, j.intentId, j.runId, j.run).0, j.intentId, inputs, j.run);
  }

  lemma NotCreated(db: Db, op: string, r: string, a: Attempt)
    requires op != "" && !a.ok
    ensures CreateRun(db, op, r, a) == (db, LifecycleResult(false, None, Some("DB_ERROR")))
  {
    hide NewEvent;
  }

  /** From the run on: what is recorded follows from the appends and the response alone. */
  lemma ExecuteIs(db: Db, j: Job, w: string, inputs: Json, s: Snapshots, ids: seq<string>, rest: seq<Attempt>)
    requires Underway(db, j, w) && NotInvoked(db, j.intentId) && NoIdKeys(inputs) && Given(db, j.intentId, inputs)
    requires j.runId != "" && j.runId !in db.runs && Schedule(db.events, ExecutionPlan(j, rest))
    ensures Executes(db, j, w, inputs, s, ids, Execute(db, j, w, inputs, s, ids).0, Execute(db, j, w, inputs, s, ids).1)
  {
    hide Inv, Schedule, CreateRun, AppendLifecycle, Conclude, Invoke, BridgedTo, NoIdKeys, RunningFor, QuietValue, Given, Adds,
      Executes, Concludes, Standing;
    if !j.run.ok {
      NotCreated(db, j.intentId, j.runId, j.run);
      StoppedAtOnce(db, j, w, inputs, s, ids);
    } else {
      CreatedIs(db, j, w, inputs, [j.running] + ([j.artifact] + ([j.final] + rest)));
      var created := CreateRun(db, j.intentId, j.runId, j.run).0;
      if !j.running.ok {
        NotStarted(created, j);
        StoppedCreated(db, created, j, w, inputs, s, ids);
      } else {
        StartedIs(created, j, w, inputs, [j.artifact] + ([j.final] + rest));
        var started := AppendLifecycle(created, j.runId, "state_running", Some(map[]), j.running).0;
        var (after, result) := Conclude(Invoke(started, j.intentId, inputs), j, w, inputs, s, ids);
        ConcludeIs(Invoke(started, j.intentId, inputs), j, w, inputs, s, ids);
        Concluded(db, created, started, j, w, inputs, s, ids, after, result);
      }
    }
  }

  /** A claimed intent whose run may be created next. */
  ghost predicate Startable(db: Db, j: Job, w: string, inputs: Json) {
    && Underway(db, j, w) && NotInvoked(db, j.intentId) && NoIdKeys(inputs) && Given(db, j.intentId, inputs)
    && j.runId != "" && j.runId !in db.runs && Schedule(db.events, ExecutionPlan(j, []))
  }

  lemma ConcludedAsTold(db: Db, j: Job, w: string, inputs: Json, s: Snapshots, ids: seq<string>)
    ensures Standing(db, j, w) && j.run.ok && j.running.ok ==>
      Concludes(db, j, w, inputs, s, ids, Conclude(db, j, w, inputs, s, ids).0, Conclude(db, j, w, inputs, s, ids).1)
  {
    hide Standing, Concludes, Conclude;
    if Standing(db, j, w) && j.run.ok && j.running.ok { ConcludeIs(db, j, w, inputs, s, ids); }
  }

  lemma ExecutedAsTold(db: Db, j: Job, w: string, inputs: Json, s: Snapshots, ids: seq<string>)
    ensures Startable(db, j, w, inputs) ==>
      Executes(db, j, w, inputs, s, ids, Execute(db, j, w, inputs, s, ids).0, Execute(db, j, w, inputs, s, ids).1)
  {
    hide Underway, NotInvoked, Given, Schedule, NoIdKeys, Executes, Execute;
    if Startable(db, j, w, inputs) { ExecuteIs(db, j, w, inputs, s, ids, []); }
  }

  // ---------------------------------------------------------------- before the run

  /** What answers a dispatch that may not start, if it may not. */
  function StartError(db: Db, j: Job): Option<DispatchResult> {
    if j.intentId !in db.intents then Some(DispatchResult(false, None, None, Some("UNKNOWN_INTENT"), None, []))
    else if db.intents[j.intentId].status != "PENDING"
    then Some(DispatchResult(false, None, Some(db.intents[j.intentId].status), Some("INVALID_STATUS"), None, []))
    else if !UsableName(j.worker) then Some(DispatchResult(false, None, None, Some("INVALID_WORKER"), None, []))
    else None
  }

  /** The payload a pending intent was submitted with. */
  function Submitted(db: Db, i: string): Json {
    if i in db.inbox then db.inbox[i].payload else Null
  }

  /** What a worker is given is what the inbox holds. */
  lemma PayloadIs(db: Db, i: string)
    requires Inv(db) && Id(db, i) && Inbox.StatusQuery(db.events, i) == Some("PENDING")
    ensures i in db.inbox && Inbox.ReadPayload(db.events, i) == Some(db.inbox[i].payload)
  {
    hide Good, FilesBacked, Accounted, RegistryKnown, Sane, Inbox.StatusQuery, Inbox.FirstSubmission, Inbox.Entries;
    PendingReadable(db, i);
    assert Holds(LegalHistory, db) && Holds(LiveTables, db);
    ReadIsEntered(db.cfg, db.events, i);
  }

  /** The checks before the first append, in terms of the live tables. */
  lemma BeginIs(db: Db, j: Job)
    requires Inv(db) && Id(db, j.intentId)
    ensures match StartError(db, j)
      case Some(refused) => Begin(db, j) == NotReady(refused)
      case None => j.intentId in db.inbox && j.worker.StrArg? && Begin(db, j) == Ready(db.inbox[j.intentId].payload, j.worker.s)
  {
    hide Inv, Inbox.StatusQuery, Inbox.ReadPayload;
    IntentFacts(db, j.intentId);
    if Inbox.StatusQuery(db.events, j.intentId) == Some("PENDING") { PayloadIs(db, j.intentId); }
  }

  /** The state once the intent is marked running, when `es` are the rows recorded so far. */
  function Marked(db: Db, j: Job, w: string, es: History): Db {
    db.(events := es, intents := db.intents[j.intentId := IntentRow("RUNNING", Some(w), j.claim.now, j.claim.eventId)])
  }

  /** The row that claims the intent for the worker. */
  predicate ClaimedBy(e: Event, j: Job, w: string) {
    Tells(e, j.claim, "intent_claimed", map["intent_id" := Str(j.intentId), "status" := Str("RUNNING"), "worker_name" := Str(w)], None, None)
  }

  lemma MarkedIs(db: Db, j: Job, w: string)
    requires Plain(db, j.intentId) && Plain(db, w)
    ensures var es := db.events + [ClaimedEvent(db, j.intentId, w, j.claim)];
      MarkRunning(db, j.intentId, w, j.claim) == Marked(db, j, w, es) && ClaimedBy(es[|db.events|], j, w)
  {
    hide NewEvent, Tells;
    NewTells(db, j.claim, "intent_claimed", Claimed(j.intentId, w), None, None);
  }

  /** `dispatch_once`: refused or stopped before the first append without a trace; otherwise the intent is claimed and
      its run goes as far as the appends and the response let it. */
  ghost predicate Dispatching(db: Db, j: Job, after: Db, result: DispatchResult) {
    var refused := StartError(db, j);
    if refused.Some? then after == db && result == refused.value
    else
      var w, n := Recorded(j.worker), |db.events|;
      if !j.claim.ok then after == db && result == DispatchResult(false, Some(w), None, Some("DB_ERROR"), None, [])
      else
        && n < |after.events| && db.events <= after.events && ClaimedBy(after.events[n], j, w)
        && Executes(Marked(db, j, w, after.events[..n+1]), j, w, Submitted(db, j.intentId), NoSnapshots, [], after, result)
  }

  lemma ExecutesGrows(db: Db, j: Job, w: string, inputs: Json, s: Snapshots, ids: seq<string>, after: Db, result: DispatchResult)
    requires Executes(db, j, w, inputs, s, ids, after, result)
    ensures db.events <= after.events && after.events[..|db.events|] == db.events
  {
    hide RunRows;
  }

  lemma DispatchEffectIs(db: Db, j: Job, rest: seq<Attempt>)
    requires Inv(db) && AllowedJob(db, j) && Schedule(db.events, DispatchPlan(j, rest))
    ensures Dispatching(db, j, DispatchOnce(db, j).0, DispatchOnce(db, j).1)
  {
    hide Inv, Schedule, Begin, MarkRunning, Execute, ExecutionPlan, Underway, NotInvoked, Given, QuietValue, NoIdKeys,
      Executes, ClaimedBy;
    BeginIs(db, j);
    if StartError(db, j).None? && j.claim.ok {
      var w := j.worker.s;
      BeginFacts(db, j);
      ClaimedUnderway(db, j, w, ExecutionPlan(j, rest));
      RunningFrame(db, j.intentId, w, j.claim);
      MarkedIs(db, j, w);
      var claimed := MarkRunning(db, j.intentId, w, j.claim);
      ExecuteIs(claimed, j, w, Begin(db, j).payload, NoSnapshots, [], rest);
      var (after, result) := Execute(claimed, j, w, Begin(db, j).payload, NoSnapshots, []);
      ExecutesGrows(claimed, j, w, Begin(db, j).payload, NoSnapshots, [], after, result);
    }
  }

  /** `dispatch_by_name`: the worker is looked up in memory first. */
  ghost predicate DispatchingNamed(db: Db, name: string, j: Job, after: Db, result: DispatchResult) {
    if name !in db.registry then after == db && result == DispatchResult(false, None, None, Some("UNKNOWN_WORKER"), None, [])
    else Dispatching(db, j.(worker := StrArg(name)), after, result)
  }

  lemma NamedEffectIs(db: Db, name: string, j: Job)
    requires Inv(db) && AllowedJob(db, j.(worker := StrArg(name))) && Schedule(db.events, DispatchPlan(j, []))
    ensures DispatchingNamed(db, name, j, DispatchByName(db, name, j).0, DispatchByName(db, name, j).1)
  {
    hide Inv, Schedule, AllowedJob, DispatchOnce, Dispatching;
    if name in db.registry {
      assert DispatchPlan(j.(worker := StrArg(name)), []) == DispatchPlan(j, []);
      DispatchEffectIs(db, j.(worker := StrArg(name)), []);
    }
  }

  // ---------------------------------------------------------------- with snapshots

  /** The row a snapshot leaves, whether it succeeded or not. */
  predicate Captured(e: Event, kind: Kind, i: string, o: Observation) {
    var t := match kind
      case Provenance => if o.error.Some? then "provenance_capture_failed" else "provenance_captured"
      case Environment => if o.error.Some? then "environment_capture_failed" else "environment_captured";
    Tells(e, o.a, t, map["type" := Str(if kind.Provenance? then "provenance" else "environment"),
                         "content" := Obj(o.content["snapshot_id" := Str(o.id)]["intent_id" := Str(i)])], Some(i), None)
  }

  /** What a snapshot reports. */
  function Reported(o: Observation): Option<string> {
    if o.a.ok then o.error else Some("STORAGE_FAILURE")
  }

  /** The state after a snapshot of which `es` are the rows recorded so far. */
  ghost predicate Snapped(db: Db, kind: Kind, i: string, o: Observation, seen: Db) {
    if o.a.ok
    then |seen.events| == |db.events| + 1 && db.events <= seen.events && Captured(seen.events[|db.events|], kind, i, o)
         && seen == db.(events := seen.events)
    else seen == db
  }

  lemma CaptureIs(db: Db, kind: Kind, i: string, o: Observation)
    requires Plain(db, i)
    ensures Capture(db, kind, i, o).1 == Reported(o)
    ensures Snapped(db, kind, i, o, Capture(db, kind, i, o).0)
  {
    hide NewEvent, Tells;
    NewTells(db, o.a, CaptureType(kind, o.error.Some?), Snapshot(KindName(kind), o.id, i, o.content), Some(i), None);
    Snoc(db.events, CaptureEvent(db, kind, i, o));
  }

  /** A snapshot that reports an error fails the intent, when that can be recorded. */
  ghost predicate Aborts(db: Db, j: Job, w: string, error: string, message: string, ids: seq<string>, after: Db, result: DispatchResult) {
    if !j.final.ok then after == db && result == DispatchResult(false, Some(w), Some("RUNNING"), Some("DB_ERROR"), None, ids)
    else
      && result == DispatchResult(false, Some(w), Some("FAILED"), Some(error), None, ids)
      && Adds(db.events, after.events, j.final, "intent_failed",
              ClosingDoc(db.cfg.nfc, j.intentId, w, "FAILED", Some(error), message), None, None)
      && after == db.(events := after.events,
                      intents := db.intents[j.intentId := IntentRow("FAILED", Some(w), j.final.now, j.final.eventId)])
  }

  lemma FailIs(db: Db, j: Job, w: string, error: string, message: string, ids: seq<string>)
    requires Plain(db, j.intentId) && Plain(db, w)
    ensures Aborts(db, j, w, error, message, ids,
      FailAfterCapture(db, j.intentId, w, Some(error), message, j.final, ids).0, FailAfterCapture(db, j.intentId, w, Some(error), message, j.final, ids).1)
  {
    hide NewEvent, Adds;
    EmitAdds(db, j.final, "intent_failed", ClosingDoc(db.cfg.nfc, j.intentId, w, "FAILED", Some(error), message), None, None);
  }

  /** From the claim on: the two snapshots, each of which may end the dispatch, then the run; `seen` and `known` are the
      states they leave. */
  ghost predicate Observing(
    db: Db, seen: Db, known: Db, j: Job, w: string, inputs: Json, p: Observation, v: Observation, after: Db, result: DispatchResult)
  {
    && Snapped(db, Provenance, j.intentId, p, seen)
    && if Reported(p).Some? then known == seen && Aborts(seen, j, w, Reported(p).value, p.stderr, [p.id], after, result)
       else
         && Snapped(seen, Environment, j.intentId, v, known)
         && if Reported(v).Some? then Aborts(known, j, w, Reported(v).value, v.stderr, [p.id, v.id], after, result)
            else Executes(known, j, w, inputs, Snapshots(p.id, v.id), [p.id, v.id], after, result)
  }

  ghost predicate Observes(db: Db, j: Job, w: string, inputs: Json, p: Observation, v: Observation, after: Db, result: DispatchResult) {
    exists seen: Db, known: Db :: Observing(db, seen, known, j, w, inputs, p, v, after, result)
  }

  lemma ObservedIs(db: Db, j: Job, w: string, inputs: Json, p: Observation, v: Observation, rest: seq<Attempt>)
    requires Underway(db, j, w) && NotInvoked(db, j.intentId) && j.runId != "" && j.runId !in db.runs && NoIdKeys(inputs)
    requires Given(db, j.intentId, inputs) && AllowedObservations(p, v)
    requires Schedule(db.events, [p.a] + ([v.a] + ExecutionPlan(j, rest)))
    ensures Observes(db, j, w, inputs, p, v, Observed(db, j, w, inputs, p, v).0, Observed(db, j, w, inputs, p, v).1)
  {
    hide Inv, Schedule, RunningFor, QuietValue, Capture, Execute, ExecutionPlan, FailAfterCapture, NoIdKeys, Given, Took,
      Snapped, Aborts, Executes;
    var i := j.intentId;
    CaptureIs(db, Provenance, i, p);
    CapturedUnderway(db, j, w, Provenance, p, [v.a] + ExecutionPlan(j, rest));
    var (seen, error) := Capture(db, Provenance, i, p);
    CaptureFrame(db, Provenance, i, p);
    GivenStays(db, seen, i, inputs, p.a);
    if error.Some? {
      FailIs(seen, j, w, error.value, p.stderr, [p.id]);
      assert Observing(db, seen, seen, j, w, inputs, p, v, Observed(db, j, w, inputs, p, v).0, Observed(db, j, w, inputs, p, v).1);
    } else {
      CaptureIs(seen, Environment, i, v);
      CapturedUnderway(seen, j, w, Environment, v, ExecutionPlan(j, rest));
      var (known, error) := Capture(seen, Environment, i, v);
      CaptureFrame(seen, Environment, i, v);
      GivenStays(seen, known, i, inputs, v.a);
      if error.Some? {
        FailIs(known, j, w, error.value, v.stderr, [p.id, v.id]);
      } else {
        ExecuteIs(known, j, w, inputs, Snapshots(p.id, v.id), [p.id, v.id], rest);
      }
      assert Observing(db, seen, known, j, w, inputs, p, v, Observed(db, j, w, inputs, p, v).0, Observed(db, j, w, inputs, p, v).1);
    }
  }

  /** `dispatch_with_provenance`. */
  ghost predicate DispatchingObserved(db: Db, j: Job, p: Observation, v: Observation, after: Db, result: DispatchResult) {
    var refused := StartError(db, j);
    if refused.Some? then after == db && result == refused.value
    else
      var w, n := Recorded(j.worker), |db.events|;
      if !j.claim.ok then after == db && result == DispatchResult(false, Some(w), None, Some("DB_ERROR"), None, [])
      else
        && n < |after.events| && db.events <= after.events && ClaimedBy(after.events[n], j, w)
        && Observes(Marked(db, j, w, after.events[..n+1]), j, w, Submitted(db, j.intentId), p, v, after, result)
  }

  lemma SnappedGrows(db: Db, kind: Kind, i: string, o: Observation, seen: Db)
    requires Snapped(db, kind, i, o, seen)
    ensures db.events <= seen.events
  {
    hide Captured;
  }

  lemma ObservesGrows(db: Db, j: Job, w: string, inputs: Json, p: Observation, v: Observation, after: Db, result: DispatchResult)
    requires Observes(db, j, w, inputs, p, v, after, result)
    ensures db.events <= after.events && after.events[..|db.events|] == db.events
  {
    hide RunRows, Snapped, ClosingDoc, Tells;
    var seen: Db, known: Db :| Observing(db, seen, known, j, w, inputs, p, v, after, result);
    SnappedGrows(db, Provenance, j.intentId, p, seen);
    if Reported(p).None? { SnappedGrows(seen, Environment, j.intentId, v, known); }
    assert known.events <= after.events;
  }

  lemma ProvenanceEffectIs(db: Db, j: Job, p: Observation, v: Observation, rest: seq<Attempt>)
    requires Inv(db) && AllowedJob(db, j) && AllowedObservations(p, v) && Schedule(db.events, CapturePlan(j, p, v, rest))
    ensures DispatchingObserved(db, j, p, v, DispatchWithProvenance(db, j, p, v).0, DispatchWithProvenance(db, j, p, v).1)
  {
    hide Inv, Schedule, Begin, MarkRunning, Observed, ExecutionPlan, Underway, NotInvoked, Given, QuietValue, NoIdKeys,
      Observes, ClaimedBy, AllowedObservations;
    BeginIs(db, j);
    if StartError(db, j).None? && j.claim.ok {
      var w := j.worker.s;
      BeginFacts(db, j);
      ClaimedUnderway(db, j, w, [p.a] + ([v.a] + ExecutionPlan(j, rest)));
      RunningFrame(db, j.intentId, w, j.claim);
      MarkedIs(db, j, w);
      var claimed := MarkRunning(db, j.intentId, w, j.claim);
      ObservedIs(claimed, j, w, Begin(db, j).payload, p, v, rest);
      var (after, result) := Observed(claimed, j, w, Begin(db, j).payload, p, v);
      ObservesGrows(claimed, j, w, Begin(db, j).payload, p, v, after, result);
    }
  }

  // ---------------------------------------------------------------- when they succeed

  lemma ExecutesSucceeds(db: Db, j: Job, w: string, inputs: Json, s: Snapshots, ids: seq<string>, after: Db, result: DispatchResult)
    requires Executes(db, j, w, inputs, s, ids, after, result)
    ensures result.success <==> j.run.ok && j.running.ok && Recordable(j.response) && j.artifact.ok && j.final.ok
  {
    hide RunRows, Recordable;
  }

  lemma DispatchingSucceeds(db: Db, j: Job, after: Db, result: DispatchResult)
    requires Dispatching(db, j, after, result)
    ensures result.success <==>
      && j.intentId in db.intents && db.intents[j.intentId].status == "PENDING" && UsableName(j.worker) && Recordable(j.response)
      && j.claim.ok && j.run.ok && j.running.ok && j.artifact.ok && j.final.ok
  {
    hide Executes, Recordable, ClaimedBy, Marked, Submitted;
    if StartError(db, j).None? && j.claim.ok {
      ExecutesSucceeds(Marked(db, j, Recorded(j.worker), after.events[..|db.events|+1]), j, Recorded(j.worker), Submitted(db, j.intentId),
        NoSnapshots, [], after, result);
    }
  }

  /** In a reachable state `dispatch_once` succeeds exactly when the intent is pending, the worker has
      a name, its answer can be recorded and the five appends do not fail: no check of its own ever
      stops it half way. */
  lemma DispatchSucceeds(db: Db, j: Job)
    requires Inv(db) && AllowedJob(db, j) && Schedule(db.events, DispatchPlan(j, []))
    ensures DispatchOnce(db, j).1.success <==>
      && j.intentId in db.intents && db.intents[j.intentId].status == "PENDING" && UsableName(j.worker) && Recordable(j.response)
      && j.claim.ok && j.run.ok && j.running.ok && j.artifact.ok && j.final.ok
  {
    hide Inv, AllowedJob, Schedule, DispatchPlan, DispatchOnce, Dispatching, Recordable;
    DispatchEffectIs(db, j, []);
    DispatchingSucceeds(db, j, DispatchOnce(db, j).0, DispatchOnce(db, j).1);
  }

  lemma ObservesSucceeds(db: Db, j: Job, w: string, inputs: Json, p: Observation, v: Observation, after: Db, result: DispatchResult)
    requires Observes(db, j, w, inputs, p, v, after, result)
    ensures result.success <==>
      && p.a.ok && p.error.None? && v.a.ok && v.error.None?
      && j.run.ok && j.running.ok && Recordable(j.response) && j.artifact.ok && j.final.ok
  {
    hide Executes, Recordable, Snapped, ClosingDoc, Tells;
    var seen: Db, known: Db :| Observing(db, seen, known, j, w, inputs, p, v, after, result);
    if Reported(p).None? && Reported(v).None? {
      ExecutesSucceeds(known, j, w, inputs, Snapshots(p.id, v.id), [p.id, v.id], after, result);
    }
  }

  lemma DispatchingObservedSucceeds(db: Db, j: Job, p: Observation, v: Observation, after: Db, result: DispatchResult)
    requires DispatchingObserved(db, j, p, v, after, result)
    ensures result.success <==>
      && j.intentId in db.intents && db.intents[j.intentId].status == "PENDING" && UsableName(j.worker) && Recordable(j.response)
      && p.a.ok && p.error.None? && v.a.ok && v.error.None?
      && j.claim.ok && j.run.ok && j.running.ok && j.artifact.ok && j.final.ok
  {
    hide Observes, Recordable, ClaimedBy, Marked, Submitted;
    if StartError(db, j).None? && j.claim.ok {
      ObservesSucceeds(Marked(db, j, Recorded(j.worker), after.events[..|db.events|+1]), j, Recorded(j.worker), Submitted(db, j.intentId),
        p, v, after, result);
    }
  }

  /** With snapshots, both captures must succeed too. */
  lemma ProvenanceSucceeds(db: Db, j: Job, p: Observation, v: Observation)
    requires Inv(db) && AllowedJob(db, j) && AllowedObservations(p, v) && Schedule(db.events, CapturePlan(j, p, v, []))
    ensures DispatchWithProvenance(db, j, p, v).1.success <==>
      && j.intentId in db.intents && db.intents[j.intentId].status == "PENDING" && UsableName(j.worker) && Recordable(j.response)
      && p.a.ok && p.error.None? && v.a.ok && v.error.None?
      && j.claim.ok && j.run.ok && j.running.ok && j.artifact.ok && j.final.ok
  {
    hide Inv, AllowedJob, AllowedObservations, Schedule, CapturePlan, DispatchWithProvenance, DispatchingObserved, Recordable;
    ProvenanceEffectIs(db, j, p, v, []);
    DispatchingObservedSucceeds(db, j, p, v, DispatchWithProvenance(db, j, p, v).0, DispatchWithProvenance(db, j, p, v).1);
  }
}
