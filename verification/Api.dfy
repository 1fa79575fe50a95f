/** The API as it runs: methods that append to the ledger and update the tables in place. Each computes
    what the corresponding function of `Kernels` says, step for step, and so keeps what every call keeps:
    called as the model allows, from a sound state, it leaves a sound state. */
module Api {
  import opened Strings
  import opened Json
  import opened Ledger
  import opened State
  import opened Payloads
  import opened Paths
  import opened Kernels
  import opened Invariant
  import opened Events
  import opened System
  import opened Effects
  import opened DispatchOutcome
  import opened Outcomes
  import Inbox
  import Claims
  import Lifecycle
  import Sessions
  import Workspace
  import Registry

  // ---------------------------------------------------------------- inbox

  method SubmitIntent(db: Database, r: Request, a: Attempt) returns (result: SubmitResult)
    modifies db`events, db`inbox, db`intents
    ensures (db.View(), result) == Kernels.SubmitIntent(old(db.View()), r, a)
    ensures Upholds(old(db.View()), Submit(r, a), db.View())
    ensures Submits(old(db.View()), r, a, db.View(), result)
  {
    hide Canonical, Submission, Chained, Unrepresentable, Apply, Upholds, MayCall, Submits;
    SubmitIntentUpheld(db.View(), r, a);
    var error := ValidateIntent(db.cfg.nfc, r.intentType, r.payload);
    var status := if error.Some? then "REJECTED" else "PENDING";
    var eventType := if error.Some? then "intent_rejected" else "intent_submitted";
    var intentType := Recorded(r.intentType);
    var stored: Option<Json>;
    if error == Some("NON_SERIALIZABLE_PAYLOAD") || !r.payload.PDict? {
      stored := Some(Unrepresentable(db.cfg.nfc(r.payloadRepr)));
    } else {
      stored := Canonical(db.cfg.nfc, r.payload);
    }
    var document := if stored.None? then None
      else Some(Obj(Submission(r.intentId, db.cfg.nfc(intentType), stored.value, status, error)));
    var appended := AppendRow(db, eventType, "kernel", document, None, None, a);
    if appended.Refused? {
      return SubmitResult(false, None, None, Some("STORAGE_FAILURE"));
    }
    db.inbox := db.inbox[r.intentId := InboxRow(appended.createdAt, intentType, stored.value, status)];
    db.intents := db.intents[r.intentId := IntentRow(status, None, appended.createdAt, appended.eventId)];
    result := SubmitResult(error.None?, Some(r.intentId), Some(status), error);
  }

  /** `update_intent_projection`: a table that is the fold of a history becomes the fold of the history with
      the intent's next event, while the intent is open. */
  method UpdateIntentProjection(db: Database, i: string, status: string, worker: Option<string>, lastEventId: string, updatedAt: string)
    modifies db`intents
    ensures db.intents == old(db.intents)[i := IntentRow(status, worker, updatedAt, lastEventId)]
    ensures forall es: History, e: Event ::
      (old(db.intents) == Inbox.Intents(es) && Inbox.Sets(e, i, IntentRow(status, worker, updatedAt, lastEventId))
       && !Inbox.Closed(old(db.intents), i)) ==> db.intents == Inbox.Intents(es + [e])
  {
    var row := IntentRow(status, worker, updatedAt, lastEventId);
    forall es: History, e: Event | db.intents == Inbox.Intents(es) && Inbox.Sets(e, i, row) && !Inbox.Closed(db.intents, i)
      ensures Inbox.Intents(es + [e]) == db.intents[i := row]
    {
      Inbox.UpsertIsStep(es, e, i, row);
    }
    hide Inbox.Sets, Inbox.Intents;
    db.intents := db.intents[i := IntentRow(status, worker, updatedAt, lastEventId)];
  }

  // ---------------------------------------------------------------- claims

  method RejectClaim(db: Database, i: string, owner: Arg, error: string, a: Attempt) returns (result: ClaimResult)
    modifies db`events
    ensures (db.View(), result) == Kernels.RejectClaim(old(db.View()), i, owner, error, a)
  {
    hide Chained, ClaimRejected;
    var document := Obj(ClaimRejected(db.cfg.nfc(i), db.cfg.nfc(Recorded(owner)), error));
    var appended := AppendRow(db, "intent_claim_rejected", "kernel", Some(document), None, None, a);
    result := ClaimResult(false, None, Some(error));
  }

  /** `claim_intent`. */
  method ClaimIntent(db: Database, i: string, owner: Arg, claim: string, a: Attempt) returns (result: ClaimResult)
    modifies db`events, db`claims
    ensures (db.View(), result) == Kernels.ClaimIntent(old(db.View()), i, owner, claim, a)
    ensures Upholds(old(db.View()), Claim(i, owner, claim, a), db.View())
    ensures MayCall(old(db.View()), Claim(i, owner, claim, a)) ==>
      (result.success <==> UsableName(owner) && HasStatus(old(db.View()), i, "PENDING") && i !in old(db.claims) && a.ok)
    ensures MayCall(old(db.View()), Claim(i, owner, claim, a)) ==>
      Claiming(old(db.View()), i, owner, claim, a, db.View(), result)
  {
    hide Chained, ClaimChange, Kernels.RejectClaim, Inbox.StatusQuery, Claims.Replay, Claims.EventsOf, Apply, Upholds, MayCall, Claiming;
    ClaimIntentUpheld(db.View(), i, owner, claim, a);
    if !UsableName(owner) {
      result := RejectClaim(db, i, owner, "INVALID_OWNER", a);
      return;
    }
    var status := Inbox.GetIntentStatus(db.events, i);
    if status.None? {
      result := RejectClaim(db, i, owner, "UNKNOWN_INTENT", a);
      return;
    }
    if status.value != "PENDING" {
      result := RejectClaim(db, i, owner, "INVALID_STATUS", a);
      return;
    }
    var active := Claims.GetClaim(db.events, i);
    if active.Some? {
      result := RejectClaim(db, i, owner, "ALREADY_CLAIMED", a);
      return;
    }
    var document := Obj(ClaimChange(claim, db.cfg.nfc(i), db.cfg.nfc(owner.s), "CLAIMED"));
    var appended := AppendRow(db, Claims.ESTABLISHED, "kernel", Some(document), None, None, a);
    if appended.Refused? {
      return ClaimResult(false, None, Some("STORAGE_FAILURE"));
    }
    db.claims := db.claims[i := ClaimRow(claim, owner.s, appended.createdAt, appended.eventId)];
    result := ClaimResult(true, Some(claim), None);
  }

  method RejectRelease(db: Database, i: string, owner: Arg, claim: Option<string>, error: string, a: Attempt)
    returns (result: ReleaseResult)
    modifies db`events
    ensures (db.View(), result) == Kernels.RejectRelease(old(db.View()), i, owner, claim, error, a)
  {
    hide Chained, ReleaseRejected;
    var document := Obj(ReleaseRejected(db.cfg.nfc(i), db.cfg.nfc(Recorded(owner)), claim, error));
    var appended := AppendRow(db, "intent_release_rejected", "kernel", Some(document), None, None, a);
    result := ReleaseResult(false, Some(error));
  }

  /** `release_claim`. */
  method ReleaseClaim(db: Database, i: string, owner: Arg, a: Attempt) returns (result: ReleaseResult)
    modifies db`events, db`claims
    ensures (db.View(), result) == Kernels.ReleaseClaim(old(db.View()), i, owner, a)
    ensures Upholds(old(db.View()), Release(i, owner, a), db.View())
    ensures MayCall(old(db.View()), Release(i, owner, a)) ==>
      (result.success <==> UsableName(owner) && i in old(db.claims) && old(db.claims)[i].ownerId == owner.s && a.ok)
    ensures MayCall(old(db.View()), Release(i, owner, a)) ==> Releasing(old(db.View()), i, owner, a, db.View(), result)
  {
    hide Chained, ClaimChange, Kernels.RejectRelease, Claims.Replay, Claims.EventsOf, Apply, Upholds, MayCall, Releasing;
    ReleaseClaimUpheld(db.View(), i, owner, a);
    if !UsableName(owner) {
      result := RejectRelease(db, i, owner, None, "INVALID_OWNER", a);
      return;
    }
    var active := Claims.GetClaim(db.events, i);
    if active.None? {
      result := RejectRelease(db, i, owner, None, "NO_ACTIVE_CLAIM", a);
      return;
    }
    if active.value.row.ownerId != owner.s {
      result := RejectRelease(db, i, owner, Some(active.value.row.claimId), "OWNER_MISMATCH", a);
      return;
    }
    var document := Obj(ClaimChange(active.value.row.claimId, db.cfg.nfc(i), db.cfg.nfc(owner.s), "RELEASED"));
    var appended := AppendRow(db, Claims.RELEASED, "kernel", Some(document), None, None, a);
    if appended.Refused? {
      return ReleaseResult(false, Some("STORAGE_FAILURE"));
    }
    db.claims := db.claims - {i};
    result := ReleaseResult(true, None);
  }

  // ---------------------------------------------------------------- run lifecycle

  /** `ProjectionEngine.update_from_event`: a table that is the fold of a history becomes the fold of the history
      with the run's next event. */
  method UpdateFromEvent(db: Database, r: string, state: string, lastEventId: string, updatedAt: string)
    modifies db`runs
    ensures db.runs == old(db.runs)[r := RunRow(state, lastEventId, updatedAt)]
    ensures forall es: History, e: Event ::
      (old(db.runs) == Lifecycle.Runs(es) && Lifecycle.Moves(e, r, RunRow(state, lastEventId, updatedAt)))
      ==> db.runs == Lifecycle.Runs(es + [e])
  {
    var row := RunRow(state, lastEventId, updatedAt);
    forall es: History, e: Event | db.runs == Lifecycle.Runs(es) && Lifecycle.Moves(e, r, row)
      ensures Lifecycle.Runs(es + [e]) == db.runs[r := row]
    {
      Lifecycle.UpsertIsStep(es, e, r, row);
    }
    hide Lifecycle.Moves, Lifecycle.Runs;
    db.runs := db.runs[r := RunRow(state, lastEventId, updatedAt)];
  }

  /** `create_run`. */
  method CreateRun(db: Database, op: string, r: string, a: Attempt) returns (result: LifecycleResult)
    modifies db`events, db`runs
    ensures (db.View(), result) == Kernels.CreateRun(old(db.View()), op, r, a)
    ensures Upholds(old(db.View()), StartRun(op, r, a), db.View())
    ensures Creating(old(db.View()), op, r, a, db.View(), result)
  {
    hide Chained, RunCreated, Apply, Upholds, MayCall, Creating;
    CreateRunUpheld(db.View(), op, r, a);
    if op == "" {
      return LifecycleResult(false, None, Some("INVALID_OPERATION_ID"));
    }
    var appended := AppendRow(db, "run_created", "kernel", Some(Obj(RunCreated(r, db.cfg.nfc(op)))), None, Some(op), a);
    if appended.Refused? {
      return LifecycleResult(false, None, Some("DB_ERROR"));
    }
    UpdateFromEvent(db, r, "run_created", appended.eventId, appended.createdAt);
    result := LifecycleResult(true, Some("run_created"), None);
  }

  /** `append_lifecycle_event`. */
  method AppendLifecycle(db: Database, r: string, t: string, extra: Option<Fields>, a: Attempt) returns (result: LifecycleResult)
    modifies db`events, db`runs
    ensures (db.View(), result) == Kernels.AppendLifecycle(old(db.View()), r, t, extra, a)
    ensures forall x: Py :: Extra(db.cfg.nfc, x) == extra ==> Upholds(old(db.View()), Advance(r, t, x, a), db.View())
    ensures Inv(old(db.View())) && Id(old(db.View()), r) ==>
      (result.success <==>
        Appendable(t) && r != "" && r in old(db.runs) && Lifecycle.Follows(old(db.runs)[r].state, t) && extra.Some? && a.ok)
    ensures Inv(old(db.View())) && Id(old(db.View()), r) ==> Advancing(old(db.View()), r, t, extra, a, db.View(), result)
  {
    hide Chained, RunStep, Lifecycle.StateQuery, Lifecycle.Follows, Apply, Upholds, Inv, Id, Extra, Advancing;
    AppendLifecycleUpheld(db.View(), r, t, extra, a);
    if !Appendable(t) {
      return LifecycleResult(false, None, Some("UNSUPPORTED_EVENT_TYPE"));
    }
    var state := Lifecycle.GetRunState(db.events, r);
    if state.None? {
      return LifecycleResult(false, None, Some(if r == "" then "INVALID_RUN_ID" else "RUN_NOT_FOUND"));
    }
    if !Lifecycle.Follows(state.value, t) {
      return LifecycleResult(false, state, Some("INVALID_TRANSITION"));
    }
    var document := if extra.None? then None else Some(Obj(RunStep(db.cfg.nfc(r), extra.value)));
    var appended := AppendRow(db, t, "kernel", document, None, None, a);
    if appended.Refused? {
      return LifecycleResult(false, state, Some(appended.errorType));
    }
    UpdateFromEvent(db, r, t, appended.eventId, appended.createdAt);
    result := LifecycleResult(true, Some(t), None);
  }

  // ---------------------------------------------------------------- dispatch

  /** The checks before the first append. */
  method Begin(db: Database, j: Job) returns (start: Start)
    ensures start == Kernels.Begin(db.View(), j)
  {
    hide Inbox.ReadPayload, Inbox.StatusQuery;
    var status := Inbox.GetIntentStatus(db.events, j.intentId);
    if status.None? { return NotReady(Failed(None, None, Some("UNKNOWN_INTENT"), [])); }
    if status.value != "PENDING" { return NotReady(Failed(None, status, Some("INVALID_STATUS"), [])); }
    var payload := Inbox.ReadIntentPayload(db.events, j.intentId);
    if payload.None? { return NotReady(Failed(None, None, Some("UNKNOWN_INTENT"), [])); }
    if !UsableName(j.worker) { return NotReady(Failed(None, None, Some("INVALID_WORKER"), [])); }
    return Ready(payload.value, j.worker.s);
  }

  /** `intent_claimed`, if it can be appended, and the row that follows it. */
  method MarkRunning(db: Database, i: string, w: string, a: Attempt) returns (ok: bool)
    modifies db`events, db`intents
    ensures ok == a.ok
    ensures db.View() == if ok then Kernels.MarkRunning(old(db.View()), i, w, a) else old(db.View())
  {
    hide Chained, Claimed;
    var document := Obj(Claimed(db.cfg.nfc(i), db.cfg.nfc(w)));
    var appended := AppendRow(db, "intent_claimed", "kernel", Some(document), None, None, a);
    if appended.Refused? { return false; }
    UpdateIntentProjection(db, i, "RUNNING", Some(w), appended.eventId, appended.createdAt);
    return true;
  }

  /** The terminal event, if it can be appended, and the row that follows it. */
  method MarkDone(db: Database, i: string, w: string, success: bool, error: Option<string>, message: string, a: Attempt)
    returns (ok: bool)
    modifies db`events, db`intents
    ensures ok == a.ok
    ensures db.View() == if ok then Kernels.MarkDone(old(db.View()), i, w, success, error, message, a) else old(db.View())
  {
    hide Chained, Outcome;
    var document := Obj(Outcome(db.cfg.nfc(i), OutcomeStatus(success), db.cfg.nfc(w), NfcOption(db.View(), error), db.cfg.nfc(message)));
    var appended := AppendRow(db, OutcomeType(success), "kernel", Some(document), None, None, a);
    if appended.Refused? { return false; }
    UpdateIntentProjection(db, i, OutcomeStatus(success), Some(w), appended.eventId, appended.createdAt);
    return true;
  }

  /** From the worker's answer to the terminal event. */
  method Conclude(db: Database, j: Job, w: string, payload: Json, s: Snapshots, ids: seq<string>) returns (result: DispatchResult)
    modifies db`events, db`runs, db`intents
    ensures (db.View(), result) == Kernels.Conclude(old(db.View()), j, w, payload, s, ids)
    ensures Standing(old(db.View()), j, w) && j.run.ok && j.running.ok ==>
      Concludes(old(db.View()), j, w, payload, s, ids, db.View(), result)
  {
    hide Kernels.AppendLifecycle, Kernels.MarkDone, ResultArtifact, Upholds, Inv, Id, Extra, Lifecycle.Follows,
      Appendable, Standing, Concludes, Advancing;
    ConcludedAsTold(db.View(), j, w, payload, s, ids);
    var x := InvokeWorker(j.response);
    var wrote := AppendLifecycle(db, j.runId, "artifact_written", ResultArtifact(db.View(), j, w, payload, s), j.artifact);
    if !wrote.success { return Failed(Some(w), Some("RUNNING"), wrote.error, ids); }
    var done := MarkDone(db, j.intentId, w, x.success, x.error, x.message, j.final);
    if !done { return Failed(Some(w), Some("RUNNING"), Some("DB_ERROR"), ids); }
    return DispatchResult(true, Some(w), Some(OutcomeStatus(x.success)), None, None, ids);
  }

  /** From the run to the end; the worker is invoked in between, exactly once. */
  method Execute(db: Database, j: Job, w: string, payload: Json, s: Snapshots, ids: seq<string>) returns (result: DispatchResult)
    modifies db`events, db`runs, db`intents, db`invoked
    ensures (db.View(), result) == Kernels.Execute(old(db.View()), j, w, payload, s, ids)
    ensures Startable(old(db.View()), j, w, payload) ==> Executes(old(db.View()), j, w, payload, s, ids, db.View(), result)
  {
    hide Kernels.AppendLifecycle, Kernels.CreateRun, Kernels.Conclude, Upholds, Inv, Id, Extra, Lifecycle.Follows,
      Appendable, Startable, Executes, Standing, Concludes, Creating, Advancing;
    ExecutedAsTold(db.View(), j, w, payload, s, ids);
    var run := CreateRun(db, j.intentId, j.runId, j.run);
    if !run.success { return Failed(Some(w), Some("RUNNING"), run.error, ids); }
    var running := AppendLifecycle(db, j.runId, "state_running", Some(map[]), j.running);
    if !running.success { return Failed(Some(w), Some("RUNNING"), running.error, ids); }
    db.invoked := db.invoked + [Invocation(j.intentId, payload, |db.events|)];
    result := Conclude(db, j, w, payload, s, ids);
  }

  /** `dispatch_once`. */
  method DispatchOnce(db: Database, j: Job) returns (result: DispatchResult)
    modifies db`events, db`runs, db`intents, db`invoked
    ensures (db.View(), result) == Kernels.DispatchOnce(old(db.View()), j)
    ensures Upholds(old(db.View()), Dispatch(j), db.View())
    ensures MayCall(old(db.View()), Dispatch(j)) ==>
      (result.success <==>
        && HasStatus(old(db.View()), j.intentId, "PENDING") && UsableName(j.worker) && Recordable(j.response)
        && j.claim.ok && j.run.ok && j.running.ok && j.artifact.ok && j.final.ok)
    ensures MayCall(old(db.View()), Dispatch(j)) ==> Dispatching(old(db.View()), j, db.View(), result)
  {
    hide Kernels.Begin, Kernels.MarkRunning, Kernels.Execute, Apply, Upholds, MayCall, Dispatching, Startable, Executes;
    DispatchOnceUpheld(db.View(), j);
    var start := Begin(db, j);
    if start.NotReady? { return start.result; }
    var claimed := MarkRunning(db, j.intentId, start.worker, j.claim);
    if !claimed { return Failed(Some(start.worker), None, Some("DB_ERROR"), []); }
    result := Execute(db, j, start.worker, start.payload, NoSnapshots, []);
  }

  /** `dispatch_by_name`. */
  method DispatchByName(db: Database, name: string, j: Job) returns (result: DispatchResult)
    modifies db`events, db`runs, db`intents, db`invoked
    ensures (db.View(), result) == Kernels.DispatchByName(old(db.View()), name, j)
    ensures Upholds(old(db.View()), DispatchNamed(name, j), db.View())
    ensures MayCall(old(db.View()), DispatchNamed(name, j)) ==> DispatchingNamed(old(db.View()), name, j, db.View(), result)
  {
    hide Kernels.DispatchOnce, Apply, Upholds, MayCall, DispatchingNamed, Dispatching;
    DispatchByNameUpheld(db.View(), name, j);
    if name !in db.registry { return Failed(None, None, Some("UNKNOWN_WORKER"), []); }
    result := DispatchOnce(db, j.(worker := StrArg(name)));
  }

  /** `capture_provenance` and `capture_environment`. */
  method Capture(db: Database, kind: Kind, i: string, o: Observation) returns (error: Option<string>)
    modifies db`events
    ensures (db.View(), error) == Kernels.Capture(old(db.View()), kind, i, o)
  {
    hide Chained, Snapshot;
    var document := Obj(Snapshot(KindName(kind), o.id, db.cfg.nfc(i), o.content));
    var appended := AppendRow(db, CaptureType(kind, o.error.Some?), "kernel", Some(document), None, Some(i), o.a);
    error := if appended.Refused? then Some("STORAGE_FAILURE") else o.error;
  }

  /** `_fail_intent_after_provenance_failure`. */
  method FailAfterCapture(db: Database, i: string, w: string, error: Option<string>, message: string, a: Attempt, ids: seq<string>)
    returns (result: DispatchResult)
    modifies db`events, db`intents
    ensures (db.View(), result) == Kernels.FailAfterCapture(old(db.View()), i, w, error, message, a, ids)
  {
    hide Kernels.MarkDone;
    var done := MarkDone(db, i, w, false, error, message, a);
    result := if done then Failed(Some(w), Some("FAILED"), error, ids) else Failed(Some(w), Some("RUNNING"), Some("DB_ERROR"), ids);
  }

  /** `dispatch_with_provenance`. */
  method DispatchWithProvenance(db: Database, j: Job, p: Observation, v: Observation) returns (result: DispatchResult)
    modifies db`events, db`runs, db`intents, db`invoked
    ensures (db.View(), result) == Kernels.DispatchWithProvenance(old(db.View()), j, p, v)
    ensures Upholds(old(db.View()), DispatchObserved(j, p, v), db.View())
    ensures MayCall(old(db.View()), DispatchObserved(j, p, v)) ==>
      (result.success <==>
        && HasStatus(old(db.View()), j.intentId, "PENDING") && UsableName(j.worker) && Recordable(j.response)
        && p.a.ok && p.error.None? && v.a.ok && v.error.None?
        && j.claim.ok && j.run.ok && j.running.ok && j.artifact.ok && j.final.ok)
    ensures MayCall(old(db.View()), DispatchObserved(j, p, v)) ==>
      DispatchingObserved(old(db.View()), j, p, v, db.View(), result)
  {
    hide Kernels.Begin, Kernels.MarkRunning, Kernels.Execute, Kernels.Capture, Kernels.FailAfterCapture, Apply, Upholds,
      MayCall, DispatchingObserved, Startable, Executes;
    DispatchWithProvenanceUpheld(db.View(), j, p, v);
    var start := Begin(db, j);
    if start.NotReady? { return start.result; }
    var w := start.worker;
    var claimed := MarkRunning(db, j.intentId, w, j.claim);
    if !claimed { return Failed(Some(w), None, Some("DB_ERROR"), []); }
    var error := Capture(db, Provenance, j.intentId, p);
    if error.Some? {
      result := FailAfterCapture(db, j.intentId, w, error, p.stderr, j.final, [p.id]);
      return;
    }
    error := Capture(db, Environment, j.intentId, v);
    if error.Some? {
      result := FailAfterCapture(db, j.intentId, w, error, v.stderr, j.final, [p.id, v.id]);
      return;
    }
    result := Execute(db, j, w, start.payload, Snapshots(p.id, v.id), [p.id, v.id]);
  }

  /** `dispatch_and_track`: claim, dispatch, release, in that order. */
  method DispatchAndTrack(db: Database, j: Job, b: Bracket) returns (result: DispatchResult)
    modifies db`events, db`runs, db`intents, db`invoked, db`claims
    ensures (db.View(), result) == Kernels.DispatchAndTrack(old(db.View()), j, b)
    ensures Upholds(old(db.View()), DispatchTracked(j, b), db.View())
    ensures MayCall(old(db.View()), DispatchTracked(j, b)) ==> Tracks(old(db.View()), j, None, b, db.View(), result)
  {
    hide Kernels.ClaimIntent, Kernels.DispatchOnce, Kernels.ReleaseClaim, Apply, Upholds, MayCall, Tracks, Claiming,
      Dispatching, Releasing;
    DispatchAndTrackUpheld(db.View(), j, b);
    var claim := ClaimIntent(db, j.intentId, b.owner, b.claimId, b.claim);
    if !claim.success { return Failed(None, None, claim.error, []); }
    result := DispatchOnce(db, j);
    var released := ReleaseClaim(db, j.intentId, b.owner, b.release);
    result := Released(result, released);
  }

  /** `dispatch_with_provenance_and_track`. */
  method DispatchWithProvenanceAndTrack(db: Database, j: Job, p: Observation, v: Observation, b: Bracket) returns (result: DispatchResult)
    modifies db`events, db`runs, db`intents, db`invoked, db`claims
    ensures (db.View(), result) == Kernels.DispatchWithProvenanceAndTrack(old(db.View()), j, p, v, b)
    ensures Upholds(old(db.View()), DispatchObservedTracked(j, p, v, b), db.View())
    ensures MayCall(old(db.View()), DispatchObservedTracked(j, p, v, b)) ==>
      Tracks(old(db.View()), j, Some((p, v)), b, db.View(), result)
  {
    hide Kernels.ClaimIntent, Kernels.DispatchWithProvenance, Kernels.ReleaseClaim, Apply, Upholds, MayCall, Tracks,
      Claiming, DispatchingObserved, Releasing;
    DispatchWithProvenanceAndTrackUpheld(db.View(), j, p, v, b);
    var claim := ClaimIntent(db, j.intentId, b.owner, b.claimId, b.claim);
    if !claim.success { return Failed(None, None, claim.error, []); }
    result := DispatchWithProvenance(db, j, p, v);
    var released := ReleaseClaim(db, j.intentId, b.owner, b.release);
    result := Released(result, released);
  }

  // ---------------------------------------------------------------- registry

  method RejectRegistration(db: Database, name: Arg, error: string, a: Attempt)
    modifies db`events
    ensures db.View() == Kernels.RejectRegistration(old(db.View()), name, error, a)
  {
    hide Chained, Registration;
    var document := Obj(Registration(db.cfg.nfc(Recorded(name)), "REJECTED", Some(error)));
    var appended := AppendRow(db, "worker_registration_rejected", "kernel", Some(document), None, None, a);
  }

  /** `register_worker`. */
  method RegisterWorker(db: Database, name: Arg, a: Attempt) returns (result: RegisterResult)
    modifies db`events, db`workers, db`registry
    ensures (db.View(), result) == Kernels.RegisterWorker(old(db.View()), name, a)
    ensures Upholds(old(db.View()), Register(name, a), db.View())
    ensures Registering(old(db.View()), name, a, db.View(), result)
  {
    hide Chained, Registration, Kernels.RejectRegistration, Apply, Upholds, MayCall, Registering;
    RegisterWorkerUpheld(db.View(), name, a);
    if !UsableName(name) {
      RejectRegistration(db, name, "INVALID_WORKER", a);
      return RegisterResult(false, None, Some("INVALID_WORKER"));
    }
    if name.s in db.registry {
      RejectRegistration(db, name, "DUPLICATE_WORKER", a);
      return RegisterResult(false, Some(name.s), Some("DUPLICATE_WORKER"));
    }
    var document := Obj(Registration(db.cfg.nfc(name.s), "REGISTERED", None));
    var appended := AppendRow(db, "worker_registered", "kernel", Some(document), None, None, a);
    if appended.Refused? { return RegisterResult(false, Some(name.s), Some("STORAGE_FAILURE")); }
    db.registry := db.registry + {name.s};
    UpdateWorkerProjection(db, name.s, appended.createdAt, appended.eventId);
    result := RegisterResult(true, Some(name.s), None);
  }

  /** `_update_worker_projection` inserts a row or ignores it: a table that holds the first registrations of a
      history holds those of the history with the registration. */
  method UpdateWorkerProjection(db: Database, name: string, registeredAt: string, lastEventId: string)
    modifies db`workers
    ensures db.workers == if name in old(db.workers) then old(db.workers) else old(db.workers)[name := WorkerRow(registeredAt, lastEventId)]
    ensures forall es: History, e: Event ::
      (old(db.workers) == Registry.Workers(es) && Registry.Enters(e, name, WorkerRow(registeredAt, lastEventId)))
      ==> db.workers == Registry.Workers(es + [e])
  {
    var row := WorkerRow(registeredAt, lastEventId);
    forall es: History, e: Event | db.workers == Registry.Workers(es) && Registry.Enters(e, name, row)
      ensures Registry.Workers(es + [e]) == if name in db.workers then db.workers else db.workers[name := row]
    {
      Registry.InsertIsStep(es, e, name, row);
    }
    hide Registry.Enters, Registry.Workers;
    if name !in db.workers { db.workers := db.workers[name := WorkerRow(registeredAt, lastEventId)]; }
  }

  // ---------------------------------------------------------------- sessions

  /** `create_session`. */
  method CreateSession(db: Database, s: string, a: Attempt) returns (result: SessionResult)
    modifies db`events, db`sessions
    ensures (db.View(), result) == Kernels.CreateSession(old(db.View()), s, a)
    ensures Upholds(old(db.View()), OpenSession(s, a), db.View())
    ensures Opening(old(db.View()), s, a, db.View(), result)
  {
    hide Chained, SessionCreated, Apply, Upholds, MayCall, Opening;
    CreateSessionUpheld(db.View(), s, a);
    var appended := AppendRow(db, Sessions.CREATED, "kernel", Some(Obj(SessionCreated(s))), None, None, a);
    if appended.Refused? { return SessionResult(false, Some("DB_ERROR")); }
    db.sessions := db.sessions[s := SessionRow(0, appended.createdAt, appended.eventId)];
    result := SessionResult(true, None);
  }

  method RejectMember(db: Database, s: string, i: string, error: string, a: Attempt) returns (result: SessionResult)
    modifies db`events
    ensures (db.View(), result) == Kernels.RejectMember(old(db.View()), s, i, error, a)
  {
    hide Chained, SessionMember;
    var document := Obj(SessionMember(db.cfg.nfc(s), db.cfg.nfc(i), Some(error)));
    var appended := AppendRow(db, "session_intent_rejected", "kernel", Some(document), None, None, a);
    result := SessionResult(false, Some(error));
  }

  /** The insert of the member and the update of its session: both tables go on as the fold of the history with
      the membership. */
  method InsertMember(db: Database, s: string, i: string, eventId: string, createdAt: string)
    modifies db`members, db`sessions
    ensures forall a: Attempt :: a.eventId == eventId && a.now == createdAt ==> db.View() == Kernels.InsertMember(old(db.View()), s, i, a)
    ensures forall es: History, e: Event ::
      (Sessions.Books(es) == Sessions.Book(old(db.sessions), old(db.members)) && Sessions.Adds(e, s, i)
       && s in old(db.sessions) && (s, i) !in old(db.members) && e.id == eventId && e.createdAt == createdAt)
      ==> Sessions.Books(es + [e]) == Sessions.Book(db.sessions, db.members)
  {
    forall es: History, e: Event
      | Sessions.Books(es) == Sessions.Book(db.sessions, db.members) && Sessions.Adds(e, s, i)
        && s in db.sessions && (s, i) !in db.members && e.id == eventId && e.createdAt == createdAt
      ensures var n := |Sessions.Intents(db.members.Keys, s)| + 1;
        Sessions.Books(es + [e]) == Sessions.Book(
          db.sessions[s := db.sessions[s].(intentCount := n, lastEventId := eventId)], db.members[(s, i) := MemberRow(n, createdAt, eventId)])
    {
      Sessions.InsertIsStep(es, e, s, i);
    }
    hide Sessions.Intents, Sessions.Adds, Sessions.Books;
    var order := |Sessions.Intents(db.members.Keys, s)| + 1;
    db.members := db.members[(s, i) := MemberRow(order, createdAt, eventId)];
    if s in db.sessions {
      db.sessions := db.sessions[s := db.sessions[s].(intentCount := order, lastEventId := eventId)];
    }
  }

  /** `add_intent_to_session`. */
  method AddIntent(db: Database, s: string, i: string, a: Attempt) returns (result: SessionResult)
    modifies db`events, db`sessions, db`members
    ensures (db.View(), result) == Kernels.AddIntent(old(db.View()), s, i, a)
    ensures Upholds(old(db.View()), AddToSession(s, i, a), db.View())
    ensures MayCall(old(db.View()), AddToSession(s, i, a)) ==>
      (result.success <==> s in old(db.sessions) && i in old(db.intents) && (s, i) !in old(db.members) && a.ok)
    ensures MayCall(old(db.View()), AddToSession(s, i, a)) ==> Joining(old(db.View()), s, i, a, db.View(), result)
  {
    hide Chained, SessionMember, Kernels.RejectMember, Kernels.InsertMember, Inbox.StatusQuery, Sessions.SessionExists,
      Sessions.MembershipExists, Apply, Upholds, MayCall, Joining;
    AddIntentUpheld(db.View(), s, i, a);
    if !Sessions.SessionExists(db.events, s) {
      result := RejectMember(db, s, i, "UNKNOWN_SESSION", a);
      return;
    }
    var status := Inbox.GetIntentStatus(db.events, i);
    if status.None? {
      result := RejectMember(db, s, i, "UNKNOWN_INTENT", a);
      return;
    }
    if Sessions.MembershipExists(db.events, s, i) {
      result := RejectMember(db, s, i, "DUPLICATE_MEMBERSHIP", a);
      return;
    }
    var document := Obj(SessionMember(db.cfg.nfc(s), db.cfg.nfc(i), None));
    var appended := AppendRow(db, Sessions.ADDED, "kernel", Some(document), None, None, a);
    if appended.Refused? { return SessionResult(false, Some("STORAGE_FAILURE")); }
    InsertMember(db, s, i, appended.eventId, appended.createdAt);
    result := SessionResult(true, None);
  }

  // ---------------------------------------------------------------- workspace

  method RejectWrite(db: Database, i: string, path: Py, error: string, a: Attempt)
    modifies db`events
    ensures db.View() == Kernels.RejectWrite(old(db.View()), i, path, error, a)
  {
    hide Chained, FileRejected, Normalize;
    var shown := Normalize(db.cfg.nfc, path);
    var document := if shown.None? then None else Some(Obj(FileRejected(db.cfg.nfc(i), shown.value, error)));
    var appended := AppendRow(db, "artifact_write_rejected", "kernel", document, None, Some(i), a);
  }

  /** `write_artifact`: the file is created exclusively, then its row is appended. */
  method WriteArtifact(db: Database, i: string, path: Py, content: Option<Bytes>, artifact: string, a: Attempt)
    returns (result: WriteResult)
    modifies db`events, db`files, db`artifacts
    ensures (db.View(), result) == Kernels.WriteArtifact(old(db.View()), i, path, content, artifact, a)
    ensures Upholds(old(db.View()), Write(i, path, content, artifact, a), db.View())
    ensures Inv(old(db.View())) && Id(old(db.View()), i) ==> Writing(old(db.View()), i, path, content, artifact, a, db.View(), result)
  {
    hide Chained, FileWritten, Kernels.RejectWrite, NormalizeRelativePath, Apply, Upholds, MayCall, Writing, Inv, Id;
    WriteArtifactUpheld(db.View(), i, path, content, artifact, a);
    if content.None? { return WriteError("INVALID_CONTENT"); }
    var checked := CheckedPath(path);
    if checked.PathError? {
      RejectWrite(db, i, path, checked.code, a);
      return WriteError(checked.code);
    }
    var p := checked.normal;
    if (i, p) in db.files {
      RejectWrite(db, i, path, "ALREADY_EXISTS", a);
      return WriteError("ALREADY_EXISTS");
    }
    db.files := db.files[(i, p) := content.value];
    var digest := db.cfg.digest(content.value);
    var document := Obj(FileWritten(artifact, db.cfg.nfc(i), db.cfg.nfc(p), digest, |content.value|));
    var appended := AppendRow(db, Workspace.WRITTEN, "kernel", Some(document), Some(digest), Some(i), a);
    if appended.Refused? { return WriteError("DB_ERROR"); }
    var row := ArtifactRow(i, p, digest, |content.value|, appended.createdAt, appended.eventId);
    db.artifacts := db.artifacts[artifact := row];
    result := Wrote(row);
  }

  /** The append of `validate_operation_envelope`. */
  method ValidateOperation(db: Database, op: string, a: Attempt) returns (ok: bool)
    modifies db`events
    ensures (db.View(), ok) == Kernels.ValidateOperation(old(db.View()), op, a)
    ensures Upholds(old(db.View()), Validate(op, a), db.View())
    ensures ok == a.ok && Notes(old(db.View()), db.View(), a, "operation_validated", map["operation_id" := Str(db.cfg.nfc(op))], Some(op))
  {
    hide Chained, Validated, Apply, Upholds, MayCall, Notes;
    ValidateOperationUpheld(db.View(), op, a);
    var appended := AppendRow(db, "operation_validated", "kernel", Some(Obj(Validated(db.cfg.nfc(op)))), None, Some(op), a);
    ok := appended.Appended?;
  }
}
