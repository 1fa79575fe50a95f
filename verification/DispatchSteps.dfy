/** Dispatch keeps the invariant wherever it stops: each stage hands the next what it needs. */
module DispatchSteps {
  import opened Strings
  import opened Json
  import opened Ledger
  import opened State
  import opened Payloads
  import opened Kernels
  import opened Appends
  import opened Frames
  import opened Invariant
  import opened Events
  import opened IntentSteps
  import opened RunSteps
  import opened ClaimSteps
  import Inbox
  import Claims
  import Lifecycle
  import Sessions
  import Workspace
  import Receipts


  // ---------------------------------------------------------------- invocations

  ghost predicate NotInvoked(db: Db, i: string) {
    forall k :: 0 <= k < |db.invoked| ==> db.invoked[k].intentId != i
  }

  lemma {:induction false} ClaimedGrows(es: History, n: nat, i: string)
    requires n <= |es| && i in Inbox.ClaimedIntents(es[..n])
    ensures i in Inbox.ClaimedIntents(es)
  {
    if n < |es| {
      assert es[..|es|-1][..n] == es[..n];
      ClaimedGrows(es[..|es|-1], n, i);
    } else {
      assert es[..n] == es;
    }
  }

  lemma NotClaimedNotInvoked(db: Db, i: string)
    requires Accounted(db.events, db.invoked) && i !in Inbox.ClaimedIntents(db.events)
    ensures NotInvoked(db, i)
  {
    hide Inbox.ClaimedIntents, Inbox.ReadPayload;
    forall k | 0 <= k < |db.invoked| ensures db.invoked[k].intentId != i {
      if db.invoked[k].intentId == i { ClaimedGrows(db.events, db.invoked[k].at, i); }
    }
  }

  /** A pending intent has not been given to any worker. */
  lemma PendingNotInvoked(db: Db, i: string)
    requires Inv(db) && i in db.cfg.ids && Inbox.StatusQuery(db.events, i) == Some("PENDING")
    ensures NotInvoked(db, i)
  {
    hide Good, Accounted, NotInvoked, Inbox.StatusQuery, Inbox.LastTypes, Inbox.ClaimedIntents;
    assert Holds(LegalHistory, db) && Holds(Invocations, db);
    IntentFacts(db, i);
    GoodIntents(db.cfg, db.events);
    Inbox.ClaimedMovedOn(db.events, i);
    StatusNames(Inbox.LastTypes(db.events)[i]);
    NotClaimedNotInvoked(db, i);
  }

  /** A running intent has its `intent_claimed` event. */
  lemma RunningClaimed(db: Db, i: string, w: string)
    requires Inv(db) && RunningFor(db, i, w)
    ensures i in Inbox.ClaimedIntents(db.events)
  {
    assert Holds(LegalHistory, db);
    IntentFacts(db, i);
    GoodIntents(db.cfg, db.events);
    Inbox.ClaimedMovedOn(db.events, i);
    hide Inv, Inbox.StatusQuery, Inbox.LastTypes;
    StatusNames(Inbox.LastTypes(db.events)[i]);
  }

  /** The payload is the one the intent was submitted with. */
  ghost predicate Given(db: Db, i: string, payload: Json) {
    Inbox.ReadPayload(db.events, i) == Some(payload)
  }

  lemma GivenStays(db: Db, after: Db, i: string, payload: Json, a: Attempt)
    requires Given(db, i, payload) && Took(db.events, after.events, a)
    ensures Given(after, i, payload)
  {
    hide Inbox.ReadPayload;
    if after.events != db.events {
      Inbox.PayloadStays(db.events, after.events[|db.events|], i);
      assert after.events == db.events + [after.events[|db.events|]];
    }
  }

  /** Giving a running intent to its worker for the first time keeps the invariant. */
  lemma InvokeKeeps(db: Db, i: string, w: string, payload: Json)
    requires Inv(db) && RunningFor(db, i, w) && NotInvoked(db, i) && Given(db, i, payload)
    ensures Inv(Invoke(db, i, payload))
  {
    hide Inv, Holds, Sane, Good, Synced, Accounted, Workspace.Backed, RegistryKnown, Inbox.ReadPayload;
    Aspects(db);
    RunningClaimed(db, i, w);
    InvokedMore(db.events, db.invoked, i, payload);
    var after := Invoke(db, i, payload);
    CoreIgnores(db, after);
    FilesIgnore(db, after);
    RegistryIgnores(db, after);
    FromAspects(after);
  }

  lemma DistinctMore(invoked: seq<Invocation>, x: Invocation)
    requires DistinctIntents(invoked) && forall k :: 0 <= k < |invoked| ==> invoked[k].intentId != x.intentId
    ensures DistinctIntents(invoked + [x])
  {
  }

  lemma ClaimedMore(es: History, invoked: seq<Invocation>, x: Invocation)
    requires ClaimedFirst(es, invoked) && x.at == |es| && x.intentId in Inbox.ClaimedIntents(es)
    ensures ClaimedFirst(es, invoked + [x])
  {
    hide Inbox.ClaimedIntents;
    assert es[..|es|] == es;
  }

  lemma GivenMore(es: History, invoked: seq<Invocation>, x: Invocation)
    requires GivenPayloads(es, invoked) && Inbox.ReadPayload(es, x.intentId) == Some(x.inputs)
    ensures GivenPayloads(es, invoked + [x])
  {
    hide Inbox.ReadPayload;
  }

  lemma InvokedMore(es: History, invoked: seq<Invocation>, i: string, payload: Json)
    requires Accounted(es, invoked) && i in Inbox.ClaimedIntents(es) && Inbox.ReadPayload(es, i) == Some(payload)
    requires forall k :: 0 <= k < |invoked| ==> invoked[k].intentId != i
    ensures Accounted(es, invoked + [Invocation(i, payload, |es|)])
  {
    hide Inbox.ClaimedIntents, Inbox.ReadPayload, ClaimedFirst, DistinctIntents, GivenPayloads;
    GivenMore(es, invoked, Invocation(i, payload, |es|));
    DistinctMore(invoked, Invocation(i, payload, |es|));
    ClaimedMore(es, invoked, Invocation(i, payload, |es|));
  }

  // ---------------------------------------------------------------- the stages

  lemma ArtifactCarried(db: Db, j: Job, w: string, payload: Json, s: Snapshots)
    requires ResultArtifact(db, j, w, payload, s).Some? && NoIdKeys(payload) && j.intentId != ""
    requires Id(db, j.intentId) && QuietValue(db.cfg.nfc, InvokeWorker(j.response).outputs)
    requires BridgedTo(db.events, j.runId, j.intentId)
    ensures Carried(db.events, j.runId, "artifact_written", ResultArtifact(db, j, w, payload, s).value, Some(j.intentId))
  {
    hide Finds, NoIdKeys, BridgedTo, InvokeWorker, Normalize;
    var x := InvokeWorker(j.response);
    var outputs := Normalize(db.cfg.nfc, x.outputs).value;
    ResultFinds(j.runId, j.intentId, Nfc(db, w), payload, outputs, x.success, NfcOption(db, x.error), Nfc(db, x.message), s);
    ResultFiled(j.runId, j.intentId, Nfc(db, w), payload, outputs, x.success, NfcOption(db, x.error), Nfc(db, x.message), s);
  }

  lemma ResultFiled(
    r: string, i: string, worker: string, inputs: Json, outputs: Json, success: bool, error: Option<string>,
    message: string, s: Snapshots)
    requires i != ""
    ensures var extra := WithArtifact(Artifact("worker_result", ResultContent(i, worker, inputs, outputs, success, error, message, s)));
      Filed(RunStep(r, extra), Some(i)) && TypedArtifact(extra)
  {
    var content := ResultContent(i, worker, inputs, outputs, success, error, message, s);
    assert Name(content, "intent_id") == Some(i);
    hide ResultContent;
  }

  /** What holds while a dispatch of intent `i` to worker `w` is under way. */
  ghost predicate Underway(db: Db, j: Job, w: string) {
    && Inv(db) && RunningFor(db, j.intentId, w) && j.intentId != ""
    && Plain(db, w) && Id(db, j.intentId) && Id(db, j.runId)
    && QuietValue(db.cfg.nfc, InvokeWorker(j.response).outputs)
  }

  lemma UnderwayStays(db: Db, after: Db, j: Job, w: string, a: Attempt)
    requires Underway(db, j, w) && Grew(db, after, a) && Inv(after)
    ensures Underway(after, j, w)
  {
    hide Inv, QuietValue;
  }

  /** The terminal event. */
  lemma FinishKeeps(db: Db, j: Job, w: string, success: bool, error: Option<string>, message: string, rest: seq<Attempt>)
    requires Underway(db, j, w) && j.final.ok && Schedule(db.events, [j.final] + rest)
    ensures var after := MarkDone(db, j.intentId, w, success, error, message, j.final);
      Inv(after) && Schedule(after.events, rest)
  {
    hide Inv, Usable, Schedule, Took, Plain, MarkDone, RunningFor, QuietValue;
    First(db.events, j.final, rest);
    DoneKeeps(db, j.intentId, w, success, error, message, j.final);
    DoneFrame(db, j.intentId, w, success, error, message, j.final);
    Then(db.events, MarkDone(db, j.intentId, w, success, error, message, j.final).events, j.final, rest);
  }

  lemma WrittenUnderway(db: Db, j: Job, w: string, payload: Json, s: Snapshots, rest: seq<Attempt>)
    requires Underway(db, j, w) && NoIdKeys(payload) && BridgedTo(db.events, j.runId, j.intentId)
    requires Schedule(db.events, [j.artifact] + rest)
    ensures var after := AppendLifecycle(db, j.runId, "artifact_written", ResultArtifact(db, j, w, payload, s), j.artifact).0;
      Underway(after, j, w) && Schedule(after.events, rest)
  {
    hide Inv, Usable, Schedule, Grew, Plain, AppendLifecycle, RunningFor, QuietValue, ResultArtifact, BridgedTo, NoIdKeys, Carried;
    First(db.events, j.artifact, rest);
    var extra := ResultArtifact(db, j, w, payload, s);
    if extra.Some? { ArtifactCarried(db, j, w, payload, s); }
    AppendKeeps(db, j.runId, "artifact_written", extra, j.artifact, Some(j.intentId));
    AppendFrame(db, j.runId, "artifact_written", extra, j.artifact);
    var after := AppendLifecycle(db, j.runId, "artifact_written", extra, j.artifact).0;
    UnderwayStays(db, after, j, w, j.artifact);
    GrewTook(db, after, j.artifact);
    Then(db.events, after.events, j.artifact, rest);
  }

  /** The last stage: artifact and terminal event. */
  lemma ConcludeKeeps(db: Db, j: Job, w: string, payload: Json, s: Snapshots, ids: seq<string>, rest: seq<Attempt>)
    requires Underway(db, j, w) && NoIdKeys(payload) && BridgedTo(db.events, j.runId, j.intentId)
    requires Schedule(db.events, [j.artifact] + ([j.final] + rest))
    ensures Inv(Conclude(db, j, w, payload, s, ids).0) && Schedule(Conclude(db, j, w, payload, s, ids).0.events, rest)
  {
    hide *;
    hide Schedule;
    WrittenUnderway(db, j, w, payload, s, [j.final] + rest);
    ConcludeCases(db, j, w, payload, s, ids, rest);
  }

  lemma ConcludeCases(db: Db, j: Job, w: string, payload: Json, s: Snapshots, ids: seq<string>, rest: seq<Attempt>)
    requires var after := AppendLifecycle(db, j.runId, "artifact_written", ResultArtifact(db, j, w, payload, s), j.artifact).0;
      Underway(after, j, w) && Schedule(after.events, [j.final] + rest)
    ensures Inv(Conclude(db, j, w, payload, s, ids).0) && Schedule(Conclude(db, j, w, payload, s, ids).0.events, rest)
  {
    hide Inv, Schedule, AppendLifecycle, MarkDone, ResultArtifact, RunningFor, QuietValue, Plain, OutcomeStatus;
    var x := InvokeWorker(j.response);
    var after := AppendLifecycle(db, j.runId, "artifact_written", ResultArtifact(db, j, w, payload, s), j.artifact).0;
    Later(after.events, j.final, rest);
    if j.final.ok { FinishKeeps(after, j, w, x.success, x.error, x.message, rest); }
  }

  /** From the run to the end. */
  lemma StartedUnderway(db: Db, j: Job, w: string, rest: seq<Attempt>)
    requires Underway(db, j, w) && BridgedTo(db.events, j.runId, j.intentId) && Schedule(db.events, [j.running] + rest)
    ensures var after := AppendLifecycle(db, j.runId, "state_running", Some(map[]), j.running).0;
      Underway(after, j, w) && BridgedTo(after.events, j.runId, j.intentId) && Schedule(after.events, rest) && after.invoked == db.invoked
  {
    hide Inv, Usable, Schedule, Took, Plain, AppendLifecycle, RunningFor, QuietValue, Carried;
    First(db.events, j.running, rest);
    QuietEmpty(db.events, j.runId);
    AppendKeeps(db, j.runId, "state_running", Some(map[]), j.running, None);
    AppendFrame(db, j.runId, "state_running", Some(map[]), j.running);
    var after := AppendLifecycle(db, j.runId, "state_running", Some(map[]), j.running).0;
    UnderwayStays(db, after, j, w, j.running);
    Then(db.events, after.events, j.running, rest);
  }

  lemma QuietEmpty(es: History, r: string)
    ensures Carried(es, r, "state_running", map[], None)
  {
    hide Carried;
    QuietCarried(es, r, "state_running", map[]);
  }

  lemma InvokedUnderway(db: Db, j: Job, w: string, payload: Json)
    requires Underway(db, j, w) && NotInvoked(db, j.intentId) && Given(db, j.intentId, payload)
    ensures var after := Invoke(db, j.intentId, payload); Underway(after, j, w) && after.events == db.events
  {
    hide Inv, NotInvoked, QuietValue, Given;
    InvokeKeeps(db, j.intentId, w, payload);
  }

  lemma CreatedUnderway(db: Db, j: Job, w: string, rest: seq<Attempt>)
    requires Underway(db, j, w) && j.runId != "" && j.runId !in db.runs && Schedule(db.events, [j.run] + rest)
    ensures var (after, run) := CreateRun(db, j.intentId, j.runId, j.run);
      && Underway(after, j, w) && Schedule(after.events, rest) && after.invoked == db.invoked
      && (run.success ==> BridgedTo(after.events, j.runId, j.intentId))
  {
    hide Inv, Usable, Schedule, Took, Plain, CreateRun, RunningFor, QuietValue, BridgedTo;
    First(db.events, j.run, rest);
    CreateKeeps(db, j.intentId, j.runId, j.run);
    CreateFrame(db, j.intentId, j.runId, j.run);
    var after := CreateRun(db, j.intentId, j.runId, j.run).0;
    UnderwayStays(db, after, j, w, j.run);
    Then(db.events, after.events, j.run, rest);
  }

  function ExecutionPlan(j: Job, rest: seq<Attempt>): seq<Attempt> {
    [j.run] + ([j.running] + ([j.artifact] + ([j.final] + rest)))
  }

  lemma ExecuteKeeps(db: Db, j: Job, w: string, payload: Json, s: Snapshots, ids: seq<string>, rest: seq<Attempt>)
    requires Underway(db, j, w) && NotInvoked(db, j.intentId) && NoIdKeys(payload) && Given(db, j.intentId, payload)
    requires j.runId != "" && j.runId !in db.runs && Schedule(db.events, ExecutionPlan(j, rest))
    ensures Inv(Execute(db, j, w, payload, s, ids).0) && Schedule(Execute(db, j, w, payload, s, ids).0.events, rest)
  {
    hide Inv, Schedule, Underway, CreateRun, AppendLifecycle, Conclude, Invoke, BridgedTo, NoIdKeys, Given, Took;
    CreatedUnderway(db, j, w, [j.running] + ([j.artifact] + ([j.final] + rest)));
    var (created, run) := CreateRun(db, j.intentId, j.runId, j.run);
    CreateFrame(db, j.intentId, j.runId, j.run);
    GivenStays(db, created, j.intentId, payload, j.run);
    LeaveEarly(created, j, w, rest);
    if run.success {
      StartedUnderway(created, j, w, [j.artifact] + ([j.final] + rest));
      var (started, running) := AppendLifecycle(created, j.runId, "state_running", Some(map[]), j.running);
      LeaveLater(started, j, w, rest);
      AppendFrame(created, j.runId, "state_running", Some(map[]), j.running);
      GivenStays(created, started, j.intentId, payload, j.running);
      if running.success {
        InvokedUnderway(started, j, w, payload);
        ConcludeKeeps(Invoke(started, j.intentId, payload), j, w, payload, s, ids, rest);
      }
    }
  }

  /** Stopping leaves the rest of the plan good. */
  lemma LeaveLater(db: Db, j: Job, w: string, rest: seq<Attempt>)
    requires Underway(db, j, w) && Schedule(db.events, [j.artifact] + ([j.final] + rest))
    ensures Inv(db) && Schedule(db.events, rest)
  {
    hide Inv, Schedule;
    Later(db.events, j.artifact, [j.final] + rest);
    Later(db.events, j.final, rest);
  }

  lemma LeaveEarly(db: Db, j: Job, w: string, rest: seq<Attempt>)
    requires Underway(db, j, w) && Schedule(db.events, [j.running] + ([j.artifact] + ([j.final] + rest)))
    ensures Inv(db) && Schedule(db.events, rest)
  {
    hide Inv, Schedule, Underway;
    Later(db.events, j.running, [j.artifact] + ([j.final] + rest));
    LeaveLater(db, j, w, rest);
  }

  // ---------------------------------------------------------------- the payload read back

  lemma {:induction false} FirstIsSubmission(es: History, i: string)
    ensures var first := Inbox.FirstSubmission(es, i);
      first.Some? ==> first.value in es && first.value.eventType == "intent_submitted"
  {
    hide Refers;
    if es != [] {
      FirstIsSubmission(es[..|es|-1], i);
      Unsnoc(es);
    }
  }

  lemma QuietPart(e: Event)
    requires Shaped(e)
    ensures QuietSubmission(e)
  {
  }

  lemma {:induction false} GoodQuiet(cfg: Config, es: History, e: Event)
    requires Good(cfg, es) && e in es
    ensures QuietSubmission(e)
  {
    hide Basic, Shaped, Legal, QuietSubmission;
    if e == es[|es|-1] { QuietPart(e); } else { GoodQuiet(cfg, es[..|es|-1], e); }
  }

  /** What the worker is given carries none of the searched keys. */
  lemma PayloadQuiet(db: Db, i: string)
    requires Inv(db) && Inbox.ReadPayload(db.events, i).Some?
    ensures NoIdKeys(Inbox.ReadPayload(db.events, i).value)
  {
    assert Holds(LegalHistory, db);
    FirstIsSubmission(db.events, i);
    GoodQuiet(db.cfg, db.events, Inbox.FirstSubmission(db.events, i).value);
    hide Inv, NoIdKeys, Inbox.FirstSubmission;
  }

  // ---------------------------------------------------------------- whole dispatches

  /** What the caller of a dispatch promises: normal names, a new run id, an answer without the
      searched keys. */
  ghost predicate AllowedJob(db: Db, j: Job) {
    && Id(db, j.intentId) && Plain(db, Recorded(j.worker)) && Id(db, j.runId)
    && j.runId != "" && j.runId !in db.runs && (j.response.Returned? ==> QuietValue(db.cfg.nfc, j.response.result.outputs))
  }

  lemma ResponseQuiet(nfc: Normalizer, x: Response)
    requires x.Returned? ==> QuietValue(nfc, x.result.outputs)
    ensures QuietValue(nfc, InvokeWorker(x).outputs)
  {
    if !x.Returned? {
      assert Normalize(nfc, PDict([])) == Some(Obj(map[]));
      assert NoIdKeys(Obj(map[]));
    }
  }

  function DispatchPlan(j: Job, rest: seq<Attempt>): seq<Attempt> {
    [j.claim] + ExecutionPlan(j, rest)
  }

  /** What the checks before the first append establish. */
  lemma BeginFacts(db: Db, j: Job)
    requires Inv(db) && AllowedJob(db, j) && Begin(db, j).Ready?
    ensures Inbox.StatusQuery(db.events, j.intentId) == Some("PENDING") && j.intentId != ""
    ensures Plain(db, Begin(db, j).worker) && NoIdKeys(Begin(db, j).payload) && NotInvoked(db, j.intentId)
    ensures Given(db, j.intentId, Begin(db, j).payload)
  {
    hide Inv, Inbox.StatusQuery, Inbox.ReadPayload, NoIdKeys, NotInvoked, QuietValue;
    PayloadQuiet(db, j.intentId);
    PendingNotInvoked(db, j.intentId);
    IntentFacts(db, j.intentId);
  }

  lemma GivenAfterClaim(db: Db, j: Job, w: string)
    requires Begin(db, j).Ready? && Given(db, j.intentId, Begin(db, j).payload) && j.claim.ok
    ensures Given(MarkRunning(db, j.intentId, w, j.claim), j.intentId, Begin(db, j).payload)
  {
    hide Begin, MarkRunning, Given, Took;
    RunningFrame(db, j.intentId, w, j.claim);
    GivenStays(db, MarkRunning(db, j.intentId, w, j.claim), j.intentId, Begin(db, j).payload, j.claim);
  }

  /** The claim of the intent starts the dispatch. */
  lemma ClaimedUnderway(db: Db, j: Job, w: string, rest: seq<Attempt>)
    requires Inv(db) && AllowedJob(db, j) && Begin(db, j).Ready? && w == Begin(db, j).worker && j.claim.ok
    requires Schedule(db.events, [j.claim] + rest)
    ensures var after := MarkRunning(db, j.intentId, w, j.claim);
      && Underway(after, j, w) && NotInvoked(after, j.intentId) && j.runId !in after.runs && Schedule(after.events, rest)
      && Given(after, j.intentId, Begin(db, j).payload)
  {
    hide Inv, Usable, Schedule, Took, MarkRunning, RunningFor, QuietValue, Begin, NoIdKeys, Inbox.StatusQuery, Given;
    BeginFacts(db, j);
    ResponseQuiet(db.cfg.nfc, j.response);
    GivenAfterClaim(db, j, w);
    First(db.events, j.claim, rest);
    RunningKeeps(db, j.intentId, w, j.claim);
    RunningFrame(db, j.intentId, w, j.claim);
    Then(db.events, MarkRunning(db, j.intentId, w, j.claim).events, j.claim, rest);
  }

  /** Stopping before the claim leaves the rest of the plan good. */
  lemma LeaveExecution(es: History, j: Job, rest: seq<Attempt>)
    requires Schedule(es, ExecutionPlan(j, rest))
    ensures Schedule(es, rest) && Schedule(es, [j.final] + rest)
  {
    hide Schedule;
    Later(es, j.run, [j.running] + ([j.artifact] + ([j.final] + rest)));
    Later(es, j.running, [j.artifact] + ([j.final] + rest));
    Later(es, j.artifact, [j.final] + rest);
    Later(es, j.final, rest);
  }

  /** `dispatch_once` keeps the invariant, wherever it stops. */
  lemma DispatchKeeps(db: Db, j: Job, rest: seq<Attempt>)
    requires Inv(db) && AllowedJob(db, j) && Schedule(db.events, DispatchPlan(j, rest))
    ensures Inv(DispatchOnce(db, j).0) && Schedule(DispatchOnce(db, j).0.events, rest)
  {
    hide Inv, Schedule, Begin, MarkRunning, Execute, ExecutionPlan, Underway, NotInvoked, Given, Plain, QuietValue, NoIdKeys;
    Later(db.events, j.claim, ExecutionPlan(j, rest));
    LeaveExecution(db.events, j, rest);
    if Begin(db, j).Ready? && j.claim.ok {
      var w := Begin(db, j).worker;
      BeginFacts(db, j);
      ClaimedUnderway(db, j, w, ExecutionPlan(j, rest));
      ExecuteKeeps(MarkRunning(db, j.intentId, w, j.claim), j, w, Begin(db, j).payload, NoSnapshots, [], rest);
    }
  }

  function CapturePlan(j: Job, p: Observation, v: Observation, rest: seq<Attempt>): seq<Attempt> {
    [j.claim] + ([p.a] + ([v.a] + ExecutionPlan(j, rest)))
  }

  lemma CapturedUnderway(db: Db, j: Job, w: string, kind: Kind, o: Observation, rest: seq<Attempt>)
    requires Underway(db, j, w) && NoIdKeys(Obj(o.content)) && Schedule(db.events, [o.a] + rest)
    ensures var after := Capture(db, kind, j.intentId, o).0;
      Underway(after, j, w) && Schedule(after.events, rest) && after.invoked == db.invoked && after.runs == db.runs
  {
    hide Inv, Usable, Schedule, Took, Capture, RunningFor, QuietValue, Plain, NoIdKeys;
    First(db.events, o.a, rest);
    CaptureKeeps(db, kind, j.intentId, o);
    CaptureFrame(db, kind, j.intentId, o);
    var after := Capture(db, kind, j.intentId, o).0;
    UnderwayStays(db, after, j, w, o.a);
    Then(db.events, after.events, o.a, rest);
  }

  lemma FailKeeps(db: Db, j: Job, w: string, error: Option<string>, message: string, ids: seq<string>, rest: seq<Attempt>)
    requires Underway(db, j, w) && Schedule(db.events, ExecutionPlan(j, rest))
    ensures var after := FailAfterCapture(db, j.intentId, w, error, message, j.final, ids).0;
      Inv(after) && Schedule(after.events, rest)
  {
    hide Inv, Schedule, ExecutionPlan, MarkDone, RunningFor, QuietValue, Plain;
    LeaveExecution(db.events, j, rest);
    if j.final.ok { FinishKeeps(db, j, w, false, error, message, rest); }
  }

  ghost predicate AllowedObservations(p: Observation, v: Observation) {
    NoIdKeys(Obj(p.content)) && NoIdKeys(Obj(v.content))
  }

  /** After the claim: the two snapshots, then the run. */
  lemma CaptureStages(db: Db, j: Job, w: string, payload: Json, p: Observation, v: Observation, rest: seq<Attempt>)
    requires Underway(db, j, w) && NotInvoked(db, j.intentId) && j.runId != "" && j.runId !in db.runs && NoIdKeys(payload)
    requires Given(db, j.intentId, payload)
    requires AllowedObservations(p, v) && Schedule(db.events, [p.a] + ([v.a] + ExecutionPlan(j, rest)))
    ensures var after := Observed(db, j, w, payload, p, v).0; Inv(after) && Schedule(after.events, rest)
  {
    hide Inv, Schedule, Underway, Capture, Execute, ExecutionPlan, FailAfterCapture, NoIdKeys, Given, Took;
    CapturedUnderway(db, j, w, Provenance, p, [v.a] + ExecutionPlan(j, rest));
    var (seen, error) := Capture(db, Provenance, j.intentId, p);
    CaptureFrame(db, Provenance, j.intentId, p);
    GivenStays(db, seen, j.intentId, payload, p.a);
    if error.Some? {
      Later(seen.events, v.a, ExecutionPlan(j, rest));
      FailKeeps(seen, j, w, error, p.stderr, [p.id], rest);
    } else {
      CapturedUnderway(seen, j, w, Environment, v, ExecutionPlan(j, rest));
      var (known, error) := Capture(seen, Environment, j.intentId, v);
      CaptureFrame(seen, Environment, j.intentId, v);
      GivenStays(seen, known, j.intentId, payload, v.a);
      if error.Some? {
        FailKeeps(known, j, w, error, v.stderr, [p.id, v.id], rest);
      } else {
        ExecuteKeeps(known, j, w, payload, Snapshots(p.id, v.id), [p.id, v.id], rest);
      }
    }
  }

  /** `dispatch_with_provenance` keeps the invariant, wherever it stops. */
  lemma ProvenanceKeeps(db: Db, j: Job, p: Observation, v: Observation, rest: seq<Attempt>)
    requires Inv(db) && AllowedJob(db, j) && AllowedObservations(p, v) && Schedule(db.events, CapturePlan(j, p, v, rest))
    ensures Inv(DispatchWithProvenance(db, j, p, v).0) && Schedule(DispatchWithProvenance(db, j, p, v).0.events, rest)
  {
    hide Inv, Schedule, Begin, MarkRunning, Observed, ExecutionPlan, Underway, NotInvoked, Given, Plain, QuietValue,
      NoIdKeys, AllowedObservations;
    Later(db.events, j.claim, [p.a] + ([v.a] + ExecutionPlan(j, rest)));
    Later(db.events, p.a, [v.a] + ExecutionPlan(j, rest));
    Later(db.events, v.a, ExecutionPlan(j, rest));
    LeaveExecution(db.events, j, rest);
    if Begin(db, j).Ready? && j.claim.ok {
      var w := Begin(db, j).worker;
      BeginFacts(db, j);
      ClaimedUnderway(db, j, w, [p.a] + ([v.a] + ExecutionPlan(j, rest)));
      CaptureStages(MarkRunning(db, j.intentId, w, j.claim), j, w, Begin(db, j).payload, p, v, rest);
    }
  }
}
