/** The kernels' operations as functions of the whole state: each appends at most one event per
    attempt and updates the live tables the way the code does, with the caller's own arguments. */
module Kernels {
  import opened Json
  import opened Ledger
  import opened State
  import opened Payloads
  import opened Paths
  import Inbox
  import Claims
  import Lifecycle
  import Sessions
  import Workspace

  function Emit(db: Db, e: Event): Db {
    db.(events := db.events + [e])
  }

  /** A row with the given payload and no artifact hash or operation. */
  function Say(db: Db, a: Attempt, eventType: string, m: Fields): Event {
    NewEvent(db, a, eventType, Obj(m), None, None)
  }

  function Nfc(db: Db, s: string): string {
    db.cfg.nfc(s)
  }

  function NfcOption(db: Db, o: Option<string>): Option<string> {
    match o case None => None case Some(s) => Some(Nfc(db, s))
  }

  // ---------------------------------------------------------------- inbox

  datatype Request = Request(intentId: string, intentType: Arg, payload: Py, payloadRepr: string)

  datatype SubmitResult = SubmitResult(
    success: bool, intentId: Option<string>, status: Option<string>, error: Option<string>)

  /** `validate_intent`. */
  function ValidateIntent(nfc: Normalizer, intentType: Arg, payload: Py): Option<string> {
    if !payload.PDict? then Some("INVALID_ENVELOPE")
    else if !UsableName(intentType) then Some("INVALID_ENVELOPE")
    else if Canonical(nfc, payload).None? then Some("NON_SERIALIZABLE_PAYLOAD")
    else None
  }

  /** The payload that is recorded; None when it cannot be, which only happens to a dict that came
      with an invalid intent type. */
  function StoredPayload(db: Db, r: Request): Option<Json> {
    if ValidateIntent(db.cfg.nfc, r.intentType, r.payload) == Some("NON_SERIALIZABLE_PAYLOAD") || !r.payload.PDict?
    then Some(Unrepresentable(Nfc(db, r.payloadRepr)))
    else Canonical(db.cfg.nfc, r.payload)
  }

  function UpsertIntent(db: Db, i: string, status: string, worker: Option<string>, a: Attempt): Db {
    db.(intents := db.intents[i := IntentRow(status, worker, a.now, a.eventId)])
  }

  function SubmitEvent(db: Db, r: Request, stored: Json, a: Attempt): Event {
    var error := ValidateIntent(db.cfg.nfc, r.intentType, r.payload);
    Say(db, a, if error.Some? then "intent_rejected" else "intent_submitted",
        Submission(r.intentId, Nfc(db, Recorded(r.intentType)), stored,
                   if error.Some? then "REJECTED" else "PENDING", error))
  }

  /** `submit_intent`. */
  function SubmitIntent(db: Db, r: Request, a: Attempt): (Db, SubmitResult) {
    var error := ValidateIntent(db.cfg.nfc, r.intentType, r.payload);
    var status := if error.Some? then "REJECTED" else "PENDING";
    var stored := StoredPayload(db, r);
    if stored.None? || !a.ok then (db, SubmitResult(false, None, None, Some("STORAGE_FAILURE")))
    else
      var after := Emit(db, SubmitEvent(db, r, stored.value, a));
      var entered := after.(inbox := db.inbox[r.intentId := InboxRow(a.now, Recorded(r.intentType), stored.value, status)]);
      (UpsertIntent(entered, r.intentId, status, None, a),
       SubmitResult(error.None?, Some(r.intentId), Some(status), error))
  }

  // ---------------------------------------------------------------- claims

  datatype ClaimResult = ClaimResult(success: bool, claimId: Option<string>, error: Option<string>)
  datatype ReleaseResult = ReleaseResult(success: bool, error: Option<string>)

  function RejectClaim(db: Db, i: string, owner: Arg, error: string, a: Attempt): (Db, ClaimResult) {
    (if a.ok
     then Emit(db, Say(db, a, "intent_claim_rejected", ClaimRejected(Nfc(db, i), Nfc(db, Recorded(owner)), error)))
     else db,
     ClaimResult(false, None, Some(error)))
  }

  function ClaimEvent(db: Db, i: string, owner: string, claim: string, a: Attempt): Event {
    Say(db, a, Claims.ESTABLISHED, ClaimChange(claim, Nfc(db, i), Nfc(db, owner), "CLAIMED"))
  }

  function ActiveClaim(db: Db, i: string): Option<Claims.ClaimInfo> {
    Claims.Replay(Claims.Looked(db.events, i))
  }

  /** `claim_intent`. */
  function ClaimIntent(db: Db, i: string, owner: Arg, claim: string, a: Attempt): (Db, ClaimResult) {
    var status := Inbox.StatusQuery(db.events, i);
    if !UsableName(owner) then RejectClaim(db, i, owner, "INVALID_OWNER", a)
    else if status.None? then RejectClaim(db, i, owner, "UNKNOWN_INTENT", a)
    else if status.value != "PENDING" then RejectClaim(db, i, owner, "INVALID_STATUS", a)
    else if ActiveClaim(db, i).Some? then RejectClaim(db, i, owner, "ALREADY_CLAIMED", a)
    else if !a.ok then (db, ClaimResult(false, None, Some("STORAGE_FAILURE")))
    else
      (Emit(db, ClaimEvent(db, i, owner.s, claim, a)).(
         claims := db.claims[i := ClaimRow(claim, owner.s, a.now, a.eventId)]),
       ClaimResult(true, Some(claim), None))
  }

  function RejectRelease(db: Db, i: string, owner: Arg, claim: Option<string>, error: string, a: Attempt): (Db, ReleaseResult) {
    (if a.ok
     then Emit(db, Say(db, a, "intent_release_rejected",
                       ReleaseRejected(Nfc(db, i), Nfc(db, Recorded(owner)), claim, error)))
     else db,
     ReleaseResult(false, Some(error)))
  }

  function ReleaseEvent(db: Db, i: string, owner: string, claim: string, a: Attempt): Event {
    Say(db, a, Claims.RELEASED, ClaimChange(claim, Nfc(db, i), Nfc(db, owner), "RELEASED"))
  }

  /** `release_claim`. */
  function ReleaseClaim(db: Db, i: string, owner: Arg, a: Attempt): (Db, ReleaseResult) {
    var active := ActiveClaim(db, i);
    if !UsableName(owner) then RejectRelease(db, i, owner, None, "INVALID_OWNER", a)
    else if active.None? then RejectRelease(db, i, owner, None, "NO_ACTIVE_CLAIM", a)
    else if active.value.row.ownerId != owner.s
    then RejectRelease(db, i, owner, Some(active.value.row.claimId), "OWNER_MISMATCH", a)
    else if !a.ok then (db, ReleaseResult(false, Some("STORAGE_FAILURE")))
    else
      (Emit(db, ReleaseEvent(db, i, owner.s, active.value.row.claimId, a)).(claims := db.claims - {i}),
       ReleaseResult(true, None))
  }

  // ---------------------------------------------------------------- run lifecycle

  datatype LifecycleResult = LifecycleResult(success: bool, state: Option<string>, error: Option<string>)

  function UpsertRun(db: Db, r: string, state: string, a: Attempt): Db {
    db.(runs := db.runs[r := RunRow(state, a.eventId, a.now)])
  }

  function RunEvent(db: Db, op: string, r: string, a: Attempt): Event {
    NewEvent(db, a, "run_created", Obj(RunCreated(r, Nfc(db, op))), None, Some(op))
  }

  /** `create_run`, with the id it draws. */
  function CreateRun(db: Db, op: string, r: string, a: Attempt): (Db, LifecycleResult) {
    if op == "" then (db, LifecycleResult(false, None, Some("INVALID_OPERATION_ID")))
    else if !a.ok then (db, LifecycleResult(false, None, Some("DB_ERROR")))
    else
      (UpsertRun(Emit(db, RunEvent(db, op, r, a)), r, "run_created", a),
       LifecycleResult(true, Some("run_created"), None))
  }

  predicate Appendable(t: string) {
    t == "state_running" || t == "artifact_written" || t == "state_completed"
  }

  /** `append_lifecycle_event`; `extra` is the canonical extra payload, None if it has none. */
  function AppendLifecycle(db: Db, r: string, t: string, extra: Option<Fields>, a: Attempt): (Db, LifecycleResult) {
    var state := Lifecycle.StateQuery(db.events, r);
    if !Appendable(t) then (db, LifecycleResult(false, None, Some("UNSUPPORTED_EVENT_TYPE")))
    else if r == "" then (db, LifecycleResult(false, None, Some("INVALID_RUN_ID")))
    else if state.None? then (db, LifecycleResult(false, None, Some("RUN_NOT_FOUND")))
    else if !Lifecycle.Follows(state.value, t) then (db, LifecycleResult(false, state, Some("INVALID_TRANSITION")))
    else if extra.None? then (db, LifecycleResult(false, state, Some("INVALID_PAYLOAD")))
    else if !a.ok then (db, LifecycleResult(false, state, Some("DB_ERROR")))
    else
      (UpsertRun(Emit(db, Say(db, a, t, RunStep(Nfc(db, r), extra.value))), r, t, a),
       LifecycleResult(true, Some(t), None))
  }

  // ---------------------------------------------------------------- dispatch

  datatype WorkerResult = WorkerResult(success: bool, outputs: Py, error: Option<string>, message: string)

  /** What `worker.invoke` does. */
  datatype Response = Raised(message: string) | NotAResult(message: string) | Returned(result: WorkerResult)

  /** `invoke_worker`. */
  function InvokeWorker(x: Response): WorkerResult {
    match x
    case Raised(message) => WorkerResult(false, PDict([]), Some("UNEXPECTED"), message)
    case NotAResult(message) => WorkerResult(false, PDict([]), Some("UNEXPECTED"), message)
    case Returned(result) => result
  }

  /** One dispatch: the intent, the worker and its answer, the run id drawn, and the five appends. */
  datatype Job = Job(
    intentId: string, worker: Arg, response: Response, runId: string,
    claim: Attempt, run: Attempt, running: Attempt, artifact: Attempt, final: Attempt)

  datatype DispatchResult = DispatchResult(
    success: bool, worker: Option<string>, status: Option<string>, error: Option<string>,
    releaseError: Option<string>, snapshots: seq<string>)

  function Failed(worker: Option<string>, status: Option<string>, error: Option<string>, snapshots: seq<string>): DispatchResult {
    DispatchResult(false, worker, status, error, None, snapshots)
  }

  datatype Start = Ready(payload: Json, worker: string) | NotReady(result: DispatchResult)

  /** The checks before anything is appended. */
  function Begin(db: Db, j: Job): Start {
    var status := Inbox.StatusQuery(db.events, j.intentId);
    if status.None? then NotReady(Failed(None, None, Some("UNKNOWN_INTENT"), []))
    else if status.value != "PENDING" then NotReady(Failed(None, status, Some("INVALID_STATUS"), []))
    else
      var payload := Inbox.ReadPayload(db.events, j.intentId);
      if payload.None? then NotReady(Failed(None, None, Some("UNKNOWN_INTENT"), []))
      else if !UsableName(j.worker) then NotReady(Failed(None, None, Some("INVALID_WORKER"), []))
      else Ready(payload.value, j.worker.s)
  }

  function ClaimedEvent(db: Db, i: string, w: string, a: Attempt): Event {
    Say(db, a, "intent_claimed", Claimed(Nfc(db, i), Nfc(db, w)))
  }

  /** `intent_claimed` and the row that follows it. */
  function MarkRunning(db: Db, i: string, w: string, a: Attempt): Db {
    UpsertIntent(Emit(db, ClaimedEvent(db, i, w, a)), i, "RUNNING", Some(w), a)
  }

  function OutcomeType(success: bool): string {
    if success then "intent_completed" else "intent_failed"
  }

  function OutcomeStatus(success: bool): string {
    if success then "COMPLETED" else "FAILED"
  }

  function OutcomeEvent(db: Db, i: string, w: string, success: bool, error: Option<string>, message: string, a: Attempt): Event {
    Say(db, a, OutcomeType(success),
        Outcome(Nfc(db, i), OutcomeStatus(success), Nfc(db, w), NfcOption(db, error), Nfc(db, message)))
  }

  /** The terminal event and the row that follows it. */
  function MarkDone(db: Db, i: string, w: string, success: bool, error: Option<string>, message: string, a: Attempt): Db {
    UpsertIntent(Emit(db, OutcomeEvent(db, i, w, success, error, message, a)), i, OutcomeStatus(success), Some(w), a)
  }

  function ResultArtifact(db: Db, j: Job, w: string, payload: Json, s: Snapshots): Option<Fields> {
    var result := InvokeWorker(j.response);
    var outputs := Normalize(db.cfg.nfc, result.outputs);
    if outputs.None? then None
    else
      Some(WithArtifact(Artifact("worker_result", ResultContent(
        Nfc(db, j.intentId), Nfc(db, w), payload, outputs.value, result.success,
        NfcOption(db, result.error), Nfc(db, result.message), s))))
  }

  /** From the worker's answer to the terminal event. */
  function Conclude(db: Db, j: Job, w: string, payload: Json, s: Snapshots, ids: seq<string>): (Db, DispatchResult) {
    var result := InvokeWorker(j.response);
    var (written, wrote) := AppendLifecycle(db, j.runId, "artifact_written", ResultArtifact(db, j, w, payload, s), j.artifact);
    if !wrote.success then (written, Failed(Some(w), Some("RUNNING"), wrote.error, ids))
    else if !j.final.ok then (written, Failed(Some(w), Some("RUNNING"), Some("DB_ERROR"), ids))
    else
      (MarkDone(written, j.intentId, w, result.success, result.error, result.message, j.final),
       DispatchResult(true, Some(w), Some(OutcomeStatus(result.success)), None, None, ids))
  }

  /** `worker.invoke(payload)` is called. */
  function Invoke(db: Db, i: string, payload: Json): Db {
    db.(invoked := db.invoked + [Invocation(i, payload, |db.events|)])
  }

  /** From the run to the worker. */
  function Execute(db: Db, j: Job, w: string, payload: Json, s: Snapshots, ids: seq<string>): (Db, DispatchResult) {
    var (created, run) := CreateRun(db, j.intentId, j.runId, j.run);
    if !run.success then (created, Failed(Some(w), Some("RUNNING"), run.error, ids))
    else
      var (started, running) := AppendLifecycle(created, j.runId, "state_running", Some(map[]), j.running);
      if !running.success then (started, Failed(Some(w), Some("RUNNING"), running.error, ids))
      else Conclude(Invoke(started, j.intentId, payload), j, w, payload, s, ids)
  }

  /** `dispatch_once`. */
  function DispatchOnce(db: Db, j: Job): (Db, DispatchResult) {
    match Begin(db, j)
    case NotReady(result) => (db, result)
    case Ready(payload, w) =>
      if !j.claim.ok then (db, Failed(Some(w), None, Some("DB_ERROR"), []))
      else Execute(MarkRunning(db, j.intentId, w, j.claim), j, w, payload, NoSnapshots, [])
  }

  /** `dispatch_by_name`. */
  function DispatchByName(db: Db, name: string, j: Job): (Db, DispatchResult) {
    if name !in db.registry then (db, Failed(None, None, Some("UNKNOWN_WORKER"), []))
    else DispatchOnce(db, j.(worker := StrArg(name)))
  }

  /** What a snapshot observes, whether it counts as an error, and the append that records it. */
  datatype Observation = Observation(id: string, content: Fields, error: Option<string>, stderr: string, a: Attempt)

  datatype Kind = Provenance | Environment

  function KindName(k: Kind): string {
    if k.Provenance? then "provenance" else "environment"
  }

  function CaptureType(k: Kind, failed: bool): string {
    match k
    case Provenance => if failed then "provenance_capture_failed" else "provenance_captured"
    case Environment => if failed then "environment_capture_failed" else "environment_captured"
  }

  function CaptureEvent(db: Db, kind: Kind, i: string, o: Observation): Event {
    NewEvent(db, o.a, CaptureType(kind, o.error.Some?),
             Obj(Snapshot(KindName(kind), o.id, Nfc(db, i), o.content)), None, Some(i))
  }

  /** `capture_provenance` and `capture_environment`: one event; the error reported, if any. */
  function Capture(db: Db, kind: Kind, i: string, o: Observation): (Db, Option<string>) {
    if !o.a.ok then (db, Some("STORAGE_FAILURE")) else (Emit(db, CaptureEvent(db, kind, i, o)), o.error)
  }

  /** `_fail_intent_after_provenance_failure`. */
  function FailAfterCapture(db: Db, i: string, w: string, error: Option<string>, message: string, a: Attempt, ids: seq<string>)
    : (Db, DispatchResult)
  {
    if !a.ok then (db, Failed(Some(w), Some("RUNNING"), Some("DB_ERROR"), ids))
    else (MarkDone(db, i, w, false, error, message, a), Failed(Some(w), Some("FAILED"), error, ids))
  }

  /** From the claim of the intent on: both snapshots, each of which may end the dispatch. */
  function Observed(db: Db, j: Job, w: string, payload: Json, p: Observation, v: Observation): (Db, DispatchResult) {
    var (seen, error) := Capture(db, Provenance, j.intentId, p);
    if error.Some? then FailAfterCapture(seen, j.intentId, w, error, p.stderr, j.final, [p.id])
    else
      var (known, error) := Capture(seen, Environment, j.intentId, v);
      if error.Some? then FailAfterCapture(known, j.intentId, w, error, v.stderr, j.final, [p.id, v.id])
      else Execute(known, j, w, payload, Snapshots(p.id, v.id), [p.id, v.id])
  }

  /** `dispatch_with_provenance`. */
  function DispatchWithProvenance(db: Db, j: Job, p: Observation, v: Observation): (Db, DispatchResult) {
    match Begin(db, j)
    case NotReady(result) => (db, result)
    case Ready(payload, w) =>
      if !j.claim.ok then (db, Failed(Some(w), None, Some("DB_ERROR"), []))
      else Observed(MarkRunning(db, j.intentId, w, j.claim), j, w, payload, p, v)
  }

  /** Claim and release around a dispatch. */
  datatype Bracket = Bracket(owner: Arg, claimId: string, claim: Attempt, release: Attempt)

  function Released(result: DispatchResult, released: ReleaseResult): DispatchResult {
    if released.success then result else result.(releaseError := released.error)
  }

  /** `dispatch_and_track`. */
  function DispatchAndTrack(db: Db, j: Job, b: Bracket): (Db, DispatchResult) {
    var (claimed, claim) := ClaimIntent(db, j.intentId, b.owner, b.claimId, b.claim);
    if !claim.success then (claimed, Failed(None, None, claim.error, []))
    else
      var (done, result) := DispatchOnce(claimed, j);
      var (after, released) := ReleaseClaim(done, j.intentId, b.owner, b.release);
      (after, Released(result, released))
  }

  /** `dispatch_with_provenance_and_track`. */
  function DispatchWithProvenanceAndTrack(db: Db, j: Job, p: Observation, v: Observation, b: Bracket): (Db, DispatchResult) {
    var (claimed, claim) := ClaimIntent(db, j.intentId, b.owner, b.claimId, b.claim);
    if !claim.success then (claimed, Failed(None, None, claim.error, []))
    else
      var (done, result) := DispatchWithProvenance(claimed, j, p, v);
      var (after, released) := ReleaseClaim(done, j.intentId, b.owner, b.release);
      (after, Released(result, released))
  }

  // ---------------------------------------------------------------- registry

  datatype RegisterResult = RegisterResult(success: bool, name: Option<string>, error: Option<string>)

  function RegisterEvent(db: Db, name: string, a: Attempt): Event {
    Say(db, a, "worker_registered", Registration(Nfc(db, name), "REGISTERED", None))
  }

  function RejectRegistration(db: Db, name: Arg, error: string, a: Attempt): Db {
    if a.ok
    then Emit(db, Say(db, a, "worker_registration_rejected", Registration(Nfc(db, Recorded(name)), "REJECTED", Some(error))))
    else db
  }

  /** `register_worker`; the table insert ignores a name it already holds. */
  function RegisterWorker(db: Db, name: Arg, a: Attempt): (Db, RegisterResult) {
    if !UsableName(name)
    then (RejectRegistration(db, name, "INVALID_WORKER", a), RegisterResult(false, None, Some("INVALID_WORKER")))
    else if name.s in db.registry
    then (RejectRegistration(db, name, "DUPLICATE_WORKER", a), RegisterResult(false, Some(name.s), Some("DUPLICATE_WORKER")))
    else if !a.ok then (db, RegisterResult(false, Some(name.s), Some("STORAGE_FAILURE")))
    else
      (Emit(db, RegisterEvent(db, name.s, a)).(
         registry := db.registry + {name.s},
         workers := if name.s in db.workers then db.workers else db.workers[name.s := WorkerRow(a.now, a.eventId)]),
       RegisterResult(true, Some(name.s), None))
  }

  /** A new process over the same ledger starts with an empty registry. */
  function Restart(db: Db): Db {
    db.(registry := {}, restarts := db.restarts + 1)
  }

  // ---------------------------------------------------------------- sessions

  datatype SessionResult = SessionResult(success: bool, error: Option<string>)

  function SessionEvent(db: Db, s: string, a: Attempt): Event {
    Say(db, a, Sessions.CREATED, SessionCreated(s))
  }

  /** `create_session`, with the id it draws; it raises when the append fails. */
  function CreateSession(db: Db, s: string, a: Attempt): (Db, SessionResult) {
    if !a.ok then (db, SessionResult(false, Some("DB_ERROR")))
    else
      (Emit(db, SessionEvent(db, s, a)).(sessions := db.sessions[s := SessionRow(0, a.now, a.eventId)]),
       SessionResult(true, None))
  }

  function RejectMember(db: Db, s: string, i: string, error: string, a: Attempt): (Db, SessionResult) {
    (if a.ok
     then Emit(db, Say(db, a, "session_intent_rejected", SessionMember(Nfc(db, s), Nfc(db, i), Some(error))))
     else db,
     SessionResult(false, Some(error)))
  }

  function MemberEvent(db: Db, s: string, i: string, a: Attempt): Event {
    Say(db, a, Sessions.ADDED, SessionMember(Nfc(db, s), Nfc(db, i), None))
  }

  /** The insert of the member and the update of its session's row. */
  function InsertMember(db: Db, s: string, i: string, a: Attempt): Db {
    var order := |Sessions.Intents(db.members.Keys, s)| + 1;
    db.(members := db.members[(s, i) := MemberRow(order, a.now, a.eventId)],
        sessions := if s in db.sessions
                    then db.sessions[s := db.sessions[s].(intentCount := order, lastEventId := a.eventId)]
                    else db.sessions)
  }

  /** `add_intent_to_session`. */
  function AddIntent(db: Db, s: string, i: string, a: Attempt): (Db, SessionResult) {
    if !Sessions.SessionExists(db.events, s) then RejectMember(db, s, i, "UNKNOWN_SESSION", a)
    else if Inbox.StatusQuery(db.events, i).None? then RejectMember(db, s, i, "UNKNOWN_INTENT", a)
    else if Sessions.MembershipExists(db.events, s, i) then RejectMember(db, s, i, "DUPLICATE_MEMBERSHIP", a)
    else if !a.ok then (db, SessionResult(false, Some("STORAGE_FAILURE")))
    else (InsertMember(Emit(db, MemberEvent(db, s, i, a)), s, i, a), SessionResult(true, None))
  }

  // ---------------------------------------------------------------- workspace

  datatype WriteResult = Wrote(row: ArtifactRow) | WriteError(code: string)

  /** The rejection is recorded if its payload can be. */
  function RejectWrite(db: Db, i: string, path: Py, error: string, a: Attempt): Db {
    var shown := Normalize(db.cfg.nfc, path);
    if a.ok && shown.Some?
    then Emit(db, NewEvent(db, a, "artifact_write_rejected", Obj(FileRejected(Nfc(db, i), shown.value, error)), None, Some(i)))
    else db
  }

  function CheckedPath(path: Py): PathResult {
    if path.PStr? then NormalizeRelativePath(path.s) else PathError("INVALID_PATH")
  }

  function FileEvent(db: Db, i: string, path: string, content: Bytes, artifact: string, a: Attempt): Event {
    NewEvent(db, a, Workspace.WRITTEN, Obj(FileWritten(artifact, Nfc(db, i), Nfc(db, path), db.cfg.digest(content), |content|)),
             Some(db.cfg.digest(content)), Some(i))
  }

  /** `write_artifact`: the file is created exclusively before the ledger hears of it. */
  function WriteArtifact(db: Db, i: string, path: Py, content: Option<Bytes>, artifact: string, a: Attempt): (Db, WriteResult) {
    if content.None? then (db, WriteError("INVALID_CONTENT"))
    else
      match CheckedPath(path)
      case PathError(code) => (RejectWrite(db, i, path, code, a), WriteError(code))
      case Path(p) =>
        if (i, p) in db.files then (RejectWrite(db, i, path, "ALREADY_EXISTS", a), WriteError("ALREADY_EXISTS"))
        else
          var stored := db.(files := db.files[(i, p) := content.value]);
          if !a.ok then (stored, WriteError("DB_ERROR"))
          else
            var row := ArtifactRow(i, p, db.cfg.digest(content.value), |content.value|, a.now, a.eventId);
            (Emit(stored, FileEvent(stored, i, p, content.value, artifact, a)).(artifacts := db.artifacts[artifact := row]),
             Wrote(row))
  }

  // ---------------------------------------------------------------- envelopes

  /** `validate_operation_envelope` after the envelope has been read and accepted. */
  function ValidateOperation(db: Db, op: string, a: Attempt): (Db, bool) {
    if a.ok then (Emit(db, NewEvent(db, a, "operation_validated", Obj(Validated(Nfc(db, op))), None, Some(op))), true)
    else (db, false)
  }
}
