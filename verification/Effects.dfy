/** What each call records, answers and leaves behind, told from its arguments and the live tables alone: every
    row with its literal document, every refusal with its condition. */
module Effects {
  import opened Strings
  import opened Like
  import opened Json
  import opened Ledger
  import opened State
  import opened Payloads
  import opened Paths
  import opened Kernels
  import opened Appends
  import opened Frames
  import opened Invariant
  import opened Events
  import opened IntentSteps
  import opened RunSteps
  import opened ClaimSteps
  import opened SessionSteps
  import opened FileSteps
  import opened System
  import Inbox
  import Claims
  import Lifecycle
  import Sessions
  import Workspace

  // ---------------------------------------------------------------- rows

  /** The row that attempt `a` recorded. */
  predicate Tells(e: Event, a: Attempt, t: string, m: Fields, operation: Option<string>, hash: Option<string>) {
    && e.id == a.eventId && e.createdAt == a.now && e.eventType == t && e.workerId == "kernel"
    && e.payload == Written(Obj(m)) && e.operationId == operation && e.artifactHash == hash
  }

  /** The ledger with one row more. */
  predicate Adds(es: History, more: History, a: Attempt, t: string, m: Fields, operation: Option<string>, hash: Option<string>) {
    |more| == |es| + 1 && es <= more && Tells(more[|es|], a, t, m, operation, hash)
  }

  /** One row more when the append succeeds, and nothing else changed at all. */
  ghost predicate Notes(db: Db, after: Db, a: Attempt, t: string, m: Fields, operation: Option<string>) {
    if a.ok then Adds(db.events, after.events, a, t, m, operation, None) && after == db.(events := after.events) else after == db
  }

  lemma NewTells(db: Db, a: Attempt, t: string, m: Fields, operation: Option<string>, hash: Option<string>)
    ensures Tells(NewEvent(db, a, t, Obj(m), hash, operation), a, t, m, operation, hash)
  {
  }

  lemma EmitAdds(db: Db, a: Attempt, t: string, m: Fields, operation: Option<string>, hash: Option<string>)
    ensures Adds(db.events, Emit(db, NewEvent(db, a, t, Obj(m), hash, operation)).events, a, t, m, operation, hash)
  {
    NewTells(db, a, t, m, operation, hash);
    Snoc(db.events, NewEvent(db, a, t, Obj(m), hash, operation));
  }

  lemma EmitNotes(db: Db, a: Attempt, t: string, m: Fields, operation: Option<string>)
    ensures Notes(db, if a.ok then Emit(db, NewEvent(db, a, t, Obj(m), None, operation)) else db, a, t, m, operation)
  {
    hide NewEvent, Adds;
    EmitAdds(db, a, t, m, operation, None);
  }

  /** An artifact document of a kind. */
  function Typed(kind: string, content: Fields): Json {
    Obj(map["type" := Str(kind), "content" := Obj(content)])
  }

  // ---------------------------------------------------------------- submission

  /** The envelope is one the kernel takes: a dict under a name. */
  predicate Enveloped(r: Request) {
    r.payload.PDict? && UsableName(r.intentType)
  }

  /** What is kept of a payload: its canonical form, or how it is shown. */
  function KeptForm(nfc: Normalizer, r: Request): Json {
    if r.payload.PDict? && Normalize(nfc, r.payload).Some? then Normalize(nfc, r.payload).value
    else Obj(map["unrepresentable_payload_repr" := Str(nfc(r.payloadRepr))])
  }

  /** Why a request is rejected, if it is. */
  function RequestError(r: Request): Option<string> {
    if !Enveloped(r) then Some("INVALID_ENVELOPE")
    else if !Serial(r.payload) then Some("NON_SERIALIZABLE_PAYLOAD")
    else None
  }

  /** `submit_intent`: accepted or rejected, the request is recorded, in the ledger and in both tables; only a dict
      that has no canonical form, under no usable name, cannot be. */
  ghost predicate Submits(db: Db, r: Request, a: Attempt, after: Db, result: SubmitResult) {
    var i, error, kept := r.intentId, RequestError(r), KeptForm(db.cfg.nfc, r);
    var status := if error.None? then "PENDING" else "REJECTED";
    if !a.ok || (r.payload.PDict? && !UsableName(r.intentType) && !Serial(r.payload))
    then after == db && result == SubmitResult(false, None, None, Some("STORAGE_FAILURE"))
    else
      && result == SubmitResult(error.None?, Some(i), Some(status), error)
      && Adds(db.events, after.events, a, if error.None? then "intent_submitted" else "intent_rejected",
              map["intent_id" := Str(i), "intent_type" := Str(db.cfg.nfc(Recorded(r.intentType))), "payload" := kept,
                  "status" := Str(status), "error_type" := OrNull(error)], None, None)
      && after == db.(events := after.events,
                      inbox := db.inbox[i := InboxRow(a.now, Recorded(r.intentType), kept, status)],
                      intents := db.intents[i := IntentRow(status, None, a.now, a.eventId)])
  }

  lemma RequestRead(db: Db, r: Request)
    ensures ValidateIntent(db.cfg.nfc, r.intentType, r.payload) == RequestError(r)
    ensures StoredPayload(db, r) ==
      if r.payload.PDict? && !UsableName(r.intentType) && !Serial(r.payload) then None else Some(KeptForm(db.cfg.nfc, r))
  {
    hide Serial, Normalize;
    NormalizeAccepts(db.cfg.nfc, r.payload);
  }

  lemma SubmitEffect(db: Db, r: Request, a: Attempt)
    ensures Submits(db, r, a, SubmitIntent(db, r, a).0, SubmitIntent(db, r, a).1)
  {
    hide NewEvent, Adds, Serial, ValidateIntent, StoredPayload, KeptForm, RequestError, UsableName;
    RequestRead(db, r);
    var error := RequestError(r);
    EmitAdds(db, a, if error.None? then "intent_submitted" else "intent_rejected",
      Submission(r.intentId, db.cfg.nfc(Recorded(r.intentType)), KeptForm(db.cfg.nfc, r), if error.None? then "PENDING" else "REJECTED", error),
      None, None);
  }

  /** A submission succeeds if and only if the payload is a dict with a canonical form, the type is a name and the
      append succeeds; then the inbox holds that form. */
  lemma SubmitSucceeds(db: Db, r: Request, a: Attempt)
    ensures var (after, result) := SubmitIntent(db, r, a);
      && (result.success <==> r.payload.PDict? && UsableName(r.intentType) && Serial(r.payload) && a.ok)
      && (result.success ==>
            && r.intentId in after.inbox && r.intentId in after.intents
            && Some(after.inbox[r.intentId].payload) == Normalize(db.cfg.nfc, r.payload)
            && after.inbox[r.intentId].status == after.intents[r.intentId].status == "PENDING")
  {
    hide SubmitIntent, Adds, Serial, Normalize;
    NormalizeAccepts(db.cfg.nfc, r.payload);
    SubmitEffect(db, r, a);
  }

  // ---------------------------------------------------------------- claims

  /** Why a claim is refused, if it is. */
  function ClaimError(db: Db, i: string, owner: Arg): Option<string> {
    if !UsableName(owner) then Some("INVALID_OWNER")
    else if i !in db.intents then Some("UNKNOWN_INTENT")
    else if db.intents[i].status != "PENDING" then Some("INVALID_STATUS")
    else if i in db.claims then Some("ALREADY_CLAIMED")
    else None
  }

  function ClaimContent(claim: Option<string>, i: string, owner: string, action: string, error: Option<string>): Json {
    Typed("claim", map["claim_id" := OrNull(claim), "intent_id" := Str(i), "owner_id" := Str(owner),
                       "action" := Str(action), "error_type" := OrNull(error)])
  }

  /** `claim_intent`. */
  ghost predicate Claiming(db: Db, i: string, owner: Arg, claim: string, a: Attempt, after: Db, result: ClaimResult) {
    var error := ClaimError(db, i, owner);
    if error.Some? then
      && result == ClaimResult(false, None, error)
      && Notes(db, after, a, "intent_claim_rejected",
               map["intent_id" := Str(i), "owner_id" := Str(db.cfg.nfc(Recorded(owner))),
                   "artifact" := ClaimContent(None, i, db.cfg.nfc(Recorded(owner)), "REJECTED", error)], None)
    else if !a.ok then after == db && result == ClaimResult(false, None, Some("STORAGE_FAILURE"))
    else
      && result == ClaimResult(true, Some(claim), None)
      && Adds(db.events, after.events, a, "intent_claim_established",
              map["claim_id" := Str(claim), "intent_id" := Str(i), "owner_id" := Str(db.cfg.nfc(owner.s)),
                  "artifact" := ClaimContent(Some(claim), i, db.cfg.nfc(owner.s), "CLAIMED", None)], None, None)
      && after == db.(events := after.events, claims := db.claims[i := ClaimRow(claim, owner.s, a.now, a.eventId)])
  }

  lemma ClaimRejects(db: Db, i: string, owner: Arg, error: string, a: Attempt)
    requires Id(db, i)
    ensures RejectClaim(db, i, owner, error, a).1 == ClaimResult(false, None, Some(error))
    ensures Notes(db, RejectClaim(db, i, owner, error, a).0, a, "intent_claim_rejected",
                  map["intent_id" := Str(i), "owner_id" := Str(db.cfg.nfc(Recorded(owner))),
                      "artifact" := ClaimContent(None, i, db.cfg.nfc(Recorded(owner)), "REJECTED", Some(error))], None)
  {
    hide NewEvent, Notes;
    EmitNotes(db, a, "intent_claim_rejected", ClaimRejected(i, db.cfg.nfc(Recorded(owner)), error), None);
  }

  lemma ClaimEffectIs(db: Db, i: string, owner: Arg, claim: string, a: Attempt)
    requires Inv(db) && Id(db, i)
    ensures Claiming(db, i, owner, claim, a, ClaimIntent(db, i, owner, claim, a).0, ClaimIntent(db, i, owner, claim, a).1)
  {
    hide Inv, Inbox.StatusQuery, ActiveClaim, RejectClaim, NewEvent, Adds, Notes;
    IntentFacts(db, i);
    ClaimFacts(db, i);
    if ClaimError(db, i, owner).Some? {
      ClaimRejects(db, i, owner, ClaimError(db, i, owner).value, a);
    } else {
      EmitAdds(db, a, "intent_claim_established", ClaimChange(claim, i, db.cfg.nfc(owner.s), "CLAIMED"), None, None);
    }
  }

  // ---------------------------------------------------------------- releases

  /** Why a release is refused, if it is, and the claim it is held against. */
  function ReleaseError(db: Db, i: string, owner: Arg): Option<(string, Option<string>)> {
    if !UsableName(owner) then Some(("INVALID_OWNER", None))
    else if i !in db.claims then Some(("NO_ACTIVE_CLAIM", None))
    else if db.claims[i].ownerId != owner.s then Some(("OWNER_MISMATCH", Some(db.claims[i].claimId)))
    else None
  }

  /** `release_claim`. */
  ghost predicate Releasing(db: Db, i: string, owner: Arg, a: Attempt, after: Db, result: ReleaseResult) {
    match ReleaseError(db, i, owner)
    case Some((error, claim)) =>
      && result == ReleaseResult(false, Some(error))
      && Notes(db, after, a, "intent_release_rejected",
               map["intent_id" := Str(i), "owner_id" := Str(db.cfg.nfc(Recorded(owner))), "claim_id" := OrNull(claim),
                   "artifact" := ClaimContent(claim, i, db.cfg.nfc(Recorded(owner)), "REJECTED", Some(error))], None)
    case None =>
      if !a.ok then after == db && result == ReleaseResult(false, Some("STORAGE_FAILURE"))
      else
        && result == ReleaseResult(true, None)
        && (i in db.claims && owner.StrArg?)
        && Adds(db.events, after.events, a, "intent_released",
                map["claim_id" := Str(db.claims[i].claimId), "intent_id" := Str(i), "owner_id" := Str(db.cfg.nfc(owner.s)),
                    "artifact" := ClaimContent(Some(db.claims[i].claimId), i, db.cfg.nfc(owner.s), "RELEASED", None)], None, None)
        && after == db.(events := after.events, claims := db.claims - {i})
  }

  lemma ReleaseRejects(db: Db, i: string, owner: Arg, claim: Option<string>, error: string, a: Attempt)
    requires Id(db, i)
    ensures RejectRelease(db, i, owner, claim, error, a).1 == ReleaseResult(false, Some(error))
    ensures Notes(db, RejectRelease(db, i, owner, claim, error, a).0, a, "intent_release_rejected",
                  map["intent_id" := Str(i), "owner_id" := Str(db.cfg.nfc(Recorded(owner))), "claim_id" := OrNull(claim),
                      "artifact" := ClaimContent(claim, i, db.cfg.nfc(Recorded(owner)), "REJECTED", Some(error))], None)
  {
    hide NewEvent, Notes;
    EmitNotes(db, a, "intent_release_rejected", ReleaseRejected(i, db.cfg.nfc(Recorded(owner)), claim, error), None);
  }

  lemma ReleaseEffectIs(db: Db, i: string, owner: Arg, a: Attempt)
    requires Inv(db) && Id(db, i)
    ensures Releasing(db, i, owner, a, ReleaseClaim(db, i, owner, a).0, ReleaseClaim(db, i, owner, a).1)
  {
    hide Inv, ActiveClaim, RejectRelease, NewEvent, Adds, Notes;
    ClaimFacts(db, i);
    match ReleaseError(db, i, owner)
    case Some((error, claim)) => ReleaseRejects(db, i, owner, claim, error, a);
    case None => EmitAdds(db, a, "intent_released", ClaimChange(db.claims[i].claimId, i, db.cfg.nfc(owner.s), "RELEASED"), None, None);
  }

  // ---------------------------------------------------------------- runs

  /** `create_run`. */
  ghost predicate Creating(db: Db, op: string, r: string, a: Attempt, after: Db, result: LifecycleResult) {
    if op == "" then after == db && result == LifecycleResult(false, None, Some("INVALID_OPERATION_ID"))
    else if !a.ok then after == db && result == LifecycleResult(false, None, Some("DB_ERROR"))
    else
      && result == LifecycleResult(true, Some("run_created"), None)
      && Adds(db.events, after.events, a, "run_created",
              map["run_id" := Str(r), "operation_id" := Str(db.cfg.nfc(op))], Some(op), None)
      && after == db.(events := after.events, runs := db.runs[r := RunRow("run_created", a.eventId, a.now)])
  }

  lemma CreateEffectIs(db: Db, op: string, r: string, a: Attempt)
    ensures Creating(db, op, r, a, CreateRun(db, op, r, a).0, CreateRun(db, op, r, a).1)
  {
    hide NewEvent, Adds;
    EmitAdds(db, a, "run_created", RunCreated(r, Nfc(db, op)), Some(op), None);
  }

  /** Why a lifecycle event is refused, if it is, and the state the answer carries. */
  function AdvanceError(db: Db, r: string, t: string, extra: Option<Fields>): Option<(string, Option<string>)> {
    if t != "state_running" && t != "artifact_written" && t != "state_completed" then Some(("UNSUPPORTED_EVENT_TYPE", None))
    else if r == "" then Some(("INVALID_RUN_ID", None))
    else if r !in db.runs then Some(("RUN_NOT_FOUND", None))
    else if !Lifecycle.Follows(db.runs[r].state, t) then Some(("INVALID_TRANSITION", Some(db.runs[r].state)))
    else if extra.None? then Some(("INVALID_PAYLOAD", Some(db.runs[r].state)))
    else None
  }

  /** `append_lifecycle_event` with its canonical extra payload, if there is one. */
  ghost predicate Advancing(db: Db, r: string, t: string, extra: Option<Fields>, a: Attempt, after: Db, result: LifecycleResult) {
    match AdvanceError(db, r, t, extra)
    case Some((error, state)) => after == db && result == LifecycleResult(false, state, Some(error))
    case None =>
      && r in db.runs && extra.Some?
      && if !a.ok then after == db && result == LifecycleResult(false, Some(db.runs[r].state), Some("DB_ERROR"))
         else
           && result == LifecycleResult(true, Some(t), None)
           && Adds(db.events, after.events, a, t, extra.value["run_id" := Str(r)], None, None)
           && after == db.(events := after.events, runs := db.runs[r := RunRow(t, a.eventId, a.now)])
  }

  lemma AdvanceEffectIs(db: Db, r: string, t: string, extra: Option<Fields>, a: Attempt)
    requires Inv(db) && Id(db, r)
    ensures Advancing(db, r, t, extra, a, AppendLifecycle(db, r, t, extra, a).0, AppendLifecycle(db, r, t, extra, a).1)
  {
    hide Inv, Lifecycle.StateQuery, Lifecycle.Follows, NewEvent, Adds;
    if r != "" { RunFacts(db, r); }
    if extra.Some? { EmitAdds(db, a, t, RunStep(r, extra.value), None, None); }
  }

  /** The extra payload of a call: none is an empty one, anything else must be a dict with a canonical form. */
  lemma ExtraIs(nfc: Normalizer, x: Py)
    ensures Extra(nfc, x).Some? <==> x.PNone? || (x.PDict? && Serial(x))
    ensures x.PNone? ==> Extra(nfc, x) == Some(map[])
    ensures x.PDict? && Serial(x) ==> Normalize(nfc, x) == Some(Obj(Extra(nfc, x).value))
  {
    hide Serial;
    NormalizeAccepts(nfc, x);
  }

  // ---------------------------------------------------------------- registry

  /** `register_worker`. */
  ghost predicate Registering(db: Db, name: Arg, a: Attempt, after: Db, result: RegisterResult) {
    if !UsableName(name) || name.s in db.registry then
      var error := if UsableName(name) then "DUPLICATE_WORKER" else "INVALID_WORKER";
      && result == RegisterResult(false, if UsableName(name) then Some(name.s) else None, Some(error))
      && Notes(db, after, a, "worker_registration_rejected",
               map["worker_name" := Str(db.cfg.nfc(Recorded(name))), "status" := Str("REJECTED"), "error_type" := Str(error)], None)
    else if !a.ok then after == db && result == RegisterResult(false, Some(name.s), Some("STORAGE_FAILURE"))
    else
      && result == RegisterResult(true, Some(name.s), None)
      && Adds(db.events, after.events, a, "worker_registered",
              map["worker_name" := Str(db.cfg.nfc(name.s)), "status" := Str("REGISTERED"), "error_type" := Null], None, None)
      && after == db.(events := after.events, registry := db.registry + {name.s},
                      workers := if name.s in db.workers then db.workers else db.workers[name.s := WorkerRow(a.now, a.eventId)])
  }

  lemma RegistrationRejects(db: Db, name: Arg, error: string, a: Attempt)
    ensures Notes(db, RejectRegistration(db, name, error, a), a, "worker_registration_rejected",
                  map["worker_name" := Str(db.cfg.nfc(Recorded(name))), "status" := Str("REJECTED"), "error_type" := Str(error)], None)
  {
    hide NewEvent, Notes;
    EmitNotes(db, a, "worker_registration_rejected", Registration(db.cfg.nfc(Recorded(name)), "REJECTED", Some(error)), None);
  }

  lemma RegisterEffectIs(db: Db, name: Arg, a: Attempt)
    ensures Registering(db, name, a, RegisterWorker(db, name, a).0, RegisterWorker(db, name, a).1)
  {
    hide RejectRegistration, NewEvent, Adds, Notes;
    if !UsableName(name) {
      RegistrationRejects(db, name, "INVALID_WORKER", a);
    } else {
      RegistrationRejects(db, name, "DUPLICATE_WORKER", a);
      EmitAdds(db, a, "worker_registered", Registration(db.cfg.nfc(name.s), "REGISTERED", None), None, None);
    }
  }

  /** A registration succeeds if and only if it is of a name that this process has not registered and the append
      succeeds: a new process takes every name again. */
  lemma RegisterSucceeds(db: Db, name: Arg, a: Attempt)
    ensures RegisterWorker(db, name, a).1.success <==> UsableName(name) && name.s !in db.registry && a.ok
    ensures RegisterWorker(Restart(db), name, a).1.success <==> UsableName(name) && a.ok
    ensures Restart(db) == db.(registry := {}, restarts := db.restarts + 1)
  {
    hide Emit, RegisterEvent, RejectRegistration;
  }

  // ---------------------------------------------------------------- sessions

  function SessionContent(s: string, i: Option<string>, error: Option<string>): Json {
    Typed("session_membership", map["session_id" := Str(s), "intent_id" := OrNull(i), "error_type" := OrNull(error)])
  }

  /** `create_session`: it succeeds if and only if the append does. */
  ghost predicate Opening(db: Db, s: string, a: Attempt, after: Db, result: SessionResult) {
    if !a.ok then after == db && result == SessionResult(false, Some("DB_ERROR"))
    else
      && result == SessionResult(true, None)
      && Adds(db.events, after.events, a, "session_created",
              map["session_id" := Str(s), "artifact" := SessionContent(s, None, None)], None, None)
      && after == db.(events := after.events, sessions := db.sessions[s := SessionRow(0, a.now, a.eventId)])
  }

  lemma OpenEffectIs(db: Db, s: string, a: Attempt)
    ensures Opening(db, s, a, CreateSession(db, s, a).0, CreateSession(db, s, a).1)
  {
    hide NewEvent, Adds;
    EmitAdds(db, a, "session_created", SessionCreated(s), None, None);
  }

  /** Why an intent may not join, if it may not. */
  function JoinError(db: Db, s: string, i: string): Option<string> {
    if s !in db.sessions then Some("UNKNOWN_SESSION")
    else if i !in db.intents then Some("UNKNOWN_INTENT")
    else if (s, i) in db.members then Some("DUPLICATE_MEMBERSHIP")
    else None
  }

  /** `add_intent_to_session`: the new member comes right after those there are. */
  ghost predicate Joining(db: Db, s: string, i: string, a: Attempt, after: Db, result: SessionResult) {
    var error := JoinError(db, s, i);
    if error.Some? then
      && result == SessionResult(false, error)
      && Notes(db, after, a, "session_intent_rejected",
               map["session_id" := Str(s), "intent_id" := Str(i), "error_type" := OrNull(error),
                   "artifact" := SessionContent(s, Some(i), error)], None)
    else if !a.ok then after == db && result == SessionResult(false, Some("STORAGE_FAILURE"))
    else
      var n := db.sessions[s].intentCount + 1;
      && result == SessionResult(true, None)
      && Adds(db.events, after.events, a, "session_intent_added",
              map["session_id" := Str(s), "intent_id" := Str(i), "error_type" := Null,
                  "artifact" := SessionContent(s, Some(i), None)], None, None)
      && after == db.(events := after.events, members := db.members[(s, i) := MemberRow(n, a.now, a.eventId)],
                      sessions := db.sessions[s := SessionRow(n, db.sessions[s].createdAt, a.eventId)])
  }

  lemma MemberRejects(db: Db, s: string, i: string, error: string, a: Attempt)
    requires Id(db, s) && Id(db, i)
    ensures RejectMember(db, s, i, error, a).1 == SessionResult(false, Some(error))
    ensures Notes(db, RejectMember(db, s, i, error, a).0, a, "session_intent_rejected",
                  map["session_id" := Str(s), "intent_id" := Str(i), "error_type" := Str(error),
                      "artifact" := SessionContent(s, Some(i), Some(error))], None)
  {
    hide NewEvent, Notes;
    EmitNotes(db, a, "session_intent_rejected", SessionMember(s, i, Some(error)), None);
  }

  /** The stored count is the number of members. */
  lemma CountIs(db: Db, s: string)
    requires Inv(db) && s in db.sessions
    ensures |Sessions.Intents(db.members.Keys, s)| == db.sessions[s].intentCount
  {
    SessionFacts(db, s, "");
    assert Sessions.Ranked(BookOf(db), s);
    hide Inv, Sessions.Intents, Sessions.HasRank;
  }

  lemma JoinEffectIs(db: Db, s: string, i: string, a: Attempt)
    requires Inv(db) && Id(db, s) && Id(db, i)
    ensures Joining(db, s, i, a, AddIntent(db, s, i, a).0, AddIntent(db, s, i, a).1)
  {
    hide Inv, Inbox.StatusQuery, Sessions.SessionExists, Sessions.MembershipExists, Sessions.Ordered, Sessions.Intents, RejectMember,
      NewEvent, Adds, Notes;
    SessionFacts(db, s, i);
    IntentFacts(db, i);
    if JoinError(db, s, i).Some? {
      MemberRejects(db, s, i, JoinError(db, s, i).value, a);
    } else {
      CountIs(db, s);
      EmitAdds(db, a, "session_intent_added", SessionMember(s, i, None), None, None);
    }
  }

  // ---------------------------------------------------------------- files

  /** Where the content of a write goes, or why it is refused. */
  function Destination(db: Db, i: string, path: Py): PathResult {
    if !path.PStr? then PathError("INVALID_PATH")
    else
      match NormalizeRelativePath(path.s)
      case PathError(code) => PathError(code)
      case Path(p) => if (i, p) in db.files then PathError("ALREADY_EXISTS") else Path(p)
  }

  /** `write_artifact`: content must be there, the destination acceptable and free; the file stays even when its row
      cannot be appended. A refusal is noted when the path given can be. */
  ghost predicate Writing(db: Db, i: string, path: Py, content: Option<Bytes>, artifact: string, a: Attempt, after: Db, result: WriteResult) {
    if content.None? then after == db && result == WriteError("INVALID_CONTENT")
    else
      match Destination(db, i, path)
      case PathError(code) =>
        && result == WriteError(code)
        && (match Normalize(db.cfg.nfc, path)
            case None => after == db
            case Some(shown) =>
              Notes(db, after, a, "artifact_write_rejected",
                    map["intent_id" := Str(i), "relative_path" := shown, "error_type" := Str(code)], Some(i)))
      case Path(p) =>
        var digest, stored := db.cfg.digest(content.value), db.files[(i, p) := content.value];
        var row := ArtifactRow(i, p, digest, |content.value|, a.now, a.eventId);
        if !a.ok then after == db.(files := stored) && result == WriteError("DB_ERROR")
        else
          && result == Wrote(row)
          && Adds(db.events, after.events, a, "artifact_file_written",
                  map["type" := Str("artifact_file"),
                      "content" := Obj(map["artifact_id" := Str(artifact), "intent_id" := Str(i), "relative_path" := Str(p),
                                           "sha256" := Str(digest), "size_bytes" := Int(|content.value|)])], Some(i), Some(digest))
          && after == db.(events := after.events, files := stored, artifacts := db.artifacts[artifact := row])
  }

  lemma WriteRejects(db: Db, i: string, path: Py, error: string, a: Attempt)
    requires Id(db, i)
    ensures match Normalize(db.cfg.nfc, path)
      case None => RejectWrite(db, i, path, error, a) == db
      case Some(shown) =>
        Notes(db, RejectWrite(db, i, path, error, a), a, "artifact_write_rejected",
              map["intent_id" := Str(i), "relative_path" := shown, "error_type" := Str(error)], Some(i))
  {
    hide NewEvent, Notes, Normalize;
    match Normalize(db.cfg.nfc, path)
    case None =>
    case Some(shown) => EmitNotes(db, a, "artifact_write_rejected", FileRejected(i, shown, error), Some(i));
  }

  lemma WriteEffectIs(db: Db, i: string, path: Py, content: Option<Bytes>, artifact: string, a: Attempt)
    requires Inv(db) && Id(db, i)
    ensures Writing(db, i, path, content, artifact, a,
                    WriteArtifact(db, i, path, content, artifact, a).0, WriteArtifact(db, i, path, content, artifact, a).1)
  {
    hide Inv, NormalizeRelativePath, RejectWrite, NewEvent, Adds, Notes, Normalize;
    match Destination(db, i, path)
    case PathError(code) => WriteRejects(db, i, path, code, a);
    case Path(p) =>
      if content.Some? {
        NormalPath(db, path.s);
        var stored := db.(files := db.files[(i, p) := content.value]);
        EmitAdds(stored, a, "artifact_file_written", FileWritten(artifact, i, p, db.cfg.digest(content.value), |content.value|),
          Some(i), Some(db.cfg.digest(content.value)));
      }
  }

  // ---------------------------------------------------------------- envelopes

  /** `validate_operation_envelope` once the envelope has been accepted. */
  lemma ValidateEffectIs(db: Db, op: string, a: Attempt)
    ensures ValidateOperation(db, op, a).1 == a.ok
    ensures Notes(db, ValidateOperation(db, op, a).0, a, "operation_validated", map["operation_id" := Str(db.cfg.nfc(op))], Some(op))
  {
    hide NewEvent, Notes;
    EmitNotes(db, a, "operation_validated", Validated(Nfc(db, op)), Some(op));
  }
}
