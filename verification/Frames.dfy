/** What each operation leaves alone, read off its definition. */
module Frames {
  import opened Json
  import opened Ledger
  import opened State
  import opened Payloads
  import opened Paths
  import opened Kernels
  import opened Appends
  import Inbox
  import Claims
  import Lifecycle
  import Sessions
  import Workspace

  // ---------------------------------------------------------------- at most one row more

  /** The intent is running for worker `w`. */
  predicate RunningFor(db: Db, i: string, w: string) {
    i in db.intents && db.intents[i].status == "RUNNING" && db.intents[i].workerName == Some(w)
  }

  /** At most one row more, intents and invocations as they were. */
  ghost predicate Grew(db: Db, after: Db, a: Attempt) {
    Took(db.events, after.events, a) && after.intents == db.intents && after.invoked == db.invoked && after.cfg == db.cfg
  }

  lemma Unmoved(db: Db, a: Attempt)
    ensures Grew(db, db, a)
  {
  }

  lemma Emitted(db: Db, a: Attempt, t: string, m: Fields, operationId: Option<string>)
    requires a.ok
    ensures Grew(db, Emit(db, NewEvent(db, a, t, Obj(m), None, operationId)), a)
  {
    Snoc(db.events, NewEvent(db, a, t, Obj(m), None, operationId));
  }

  lemma TableAside(db: Db, after: Db, a: Attempt, runs: RunTable)
    requires Grew(db, after, a)
    ensures Grew(db, after.(runs := runs), a)
  {
  }

  lemma EmitRuns(db: Db, e: Event)
    ensures Emit(db, e).runs == db.runs && Emit(db, e).intents == db.intents && Emit(db, e).invoked == db.invoked && Emit(db, e).cfg == db.cfg
  {
  }

  lemma AppendFrame(db: Db, r: string, t: string, extra: Option<Fields>, a: Attempt)
    ensures Grew(db, AppendLifecycle(db, r, t, extra, a).0, a)
  {
    hide RunStep, Lifecycle.StateQuery, Lifecycle.Follows, Appendable, Grew, NewEvent, Emit;
    Unmoved(db, a);
    if extra.Some? && a.ok {
      Emitted(db, a, t, RunStep(Nfc(db, r), extra.value), None);
      TableAside(db, Emit(db, Say(db, a, t, RunStep(Nfc(db, r), extra.value))), a, db.runs[r := RunRow(t, a.eventId, a.now)]);
      EmitRuns(db, Say(db, a, t, RunStep(Nfc(db, r), extra.value)));
    }
  }

  lemma CreateFrame(db: Db, op: string, r: string, a: Attempt)
    ensures Grew(db, CreateRun(db, op, r, a).0, a)
  {
    hide RunCreated, Grew, NewEvent, Emit;
    Unmoved(db, a);
    if a.ok {
      Emitted(db, a, "run_created", RunCreated(r, Nfc(db, op)), Some(op));
      TableAside(db, Emit(db, RunEvent(db, op, r, a)), a, db.runs[r := RunRow("run_created", a.eventId, a.now)]);
      EmitRuns(db, RunEvent(db, op, r, a));
    }
  }

  lemma CaptureFrame(db: Db, kind: Kind, i: string, o: Observation)
    ensures Grew(db, Capture(db, kind, i, o).0, o.a) && Capture(db, kind, i, o).0.runs == db.runs
  {
    hide Snapshot, Grew, NewEvent, Emit, CaptureType, KindName;
    Unmoved(db, o.a);
    if o.a.ok {
      Emitted(db, o.a, CaptureType(kind, o.error.Some?), Snapshot(KindName(kind), o.id, Nfc(db, i), o.content), Some(i));
      EmitRuns(db, CaptureEvent(db, kind, i, o));
    }
  }

  lemma RunningFrame(db: Db, i: string, w: string, a: Attempt)
    requires a.ok
    ensures var after := MarkRunning(db, i, w, a);
      && Took(db.events, after.events, a) && after.invoked == db.invoked && after.runs == db.runs && after.cfg == db.cfg
      && RunningFor(after, i, w)
  {
    hide Claimed, NewEvent, Emit, Took;
    Emitted(db, a, "intent_claimed", Claimed(Nfc(db, i), Nfc(db, w)), None);
    EmitRuns(db, ClaimedEvent(db, i, w, a));
  }

  lemma DoneFrame(db: Db, i: string, w: string, success: bool, error: Option<string>, message: string, a: Attempt)
    requires a.ok
    ensures Took(db.events, MarkDone(db, i, w, success, error, message, a).events, a)
  {
    hide Outcome, OutcomeType, OutcomeStatus, NewEvent, Emit, Took;
    Emitted(db, a, OutcomeType(success), Outcome(Nfc(db, i), OutcomeStatus(success), Nfc(db, w), NfcOption(db, error), Nfc(db, message)), None);
  }

  lemma GrewTook(db: Db, after: Db, a: Attempt)
    requires Grew(db, after, a)
    ensures Took(db.events, after.events, a)
  {
  }

  // ---------------------------------------------------------------- claims and functions kept

  lemma ClaimFrame(db: Db, i: string, owner: Arg, claim: string, a: Attempt)
    ensures var after := ClaimIntent(db, i, owner, claim, a).0;
      Took(db.events, after.events, a) && after.runs == db.runs && after.cfg == db.cfg
  {
    hide Took, NewEvent, Emit, ClaimRejected, ClaimChange, Inbox.StatusQuery, ActiveClaim, Grew;
    Unmoved(db, a);
    GrewTook(db, db, a);
    if a.ok {
      forall error ensures Took(db.events, RejectClaim(db, i, owner, error, a).0.events, a)
        && RejectClaim(db, i, owner, error, a).0.runs == db.runs && RejectClaim(db, i, owner, error, a).0.cfg == db.cfg
      {
        var m := ClaimRejected(Nfc(db, i), Nfc(db, Recorded(owner)), error);
        Emitted(db, a, "intent_claim_rejected", m, None);
        GrewTook(db, Emit(db, Say(db, a, "intent_claim_rejected", m)), a);
        EmitRuns(db, Say(db, a, "intent_claim_rejected", m));
      }
      if UsableName(owner) {
        var m := ClaimChange(claim, Nfc(db, i), Nfc(db, owner.s), "CLAIMED");
        Emitted(db, a, Claims.ESTABLISHED, m, None);
        GrewTook(db, Emit(db, ClaimEvent(db, i, owner.s, claim, a)), a);
        EmitRuns(db, ClaimEvent(db, i, owner.s, claim, a));
      }
    }
  }

  /** Same functions, same claims, same registry, a longer ledger. */
  ghost predicate Kept(db: Db, after: Db) {
    && after.cfg == db.cfg && after.claims == db.claims && db.events <= after.events
  }

  lemma KeptTrans(a: Db, b: Db, c: Db)
    requires Kept(a, b) && Kept(b, c)
    ensures Kept(a, c)
  {
  }

  lemma EmitKept(db: Db, e: Event)
    ensures Kept(db, Emit(db, e))
  {
  }

  lemma UpsertRunKept(db: Db, e: Event, r: string, t: string, a: Attempt)
    ensures Kept(db, UpsertRun(Emit(db, e), r, t, a))
  {
  }

  lemma UpsertIntentKept(db: Db, e: Event, i: string, status: string, w: Option<string>, a: Attempt)
    ensures Kept(db, UpsertIntent(Emit(db, e), i, status, w, a))
  {
  }

  lemma SelfKept(db: Db)
    ensures Kept(db, db)
  {
  }

  lemma AppendKept(db: Db, r: string, t: string, extra: Option<Fields>, a: Attempt)
    ensures Kept(db, AppendLifecycle(db, r, t, extra, a).0)
  {
    hide NewEvent, RunStep, Lifecycle.StateQuery, Lifecycle.Follows, Appendable, Kept, Emit, UpsertRun;
    SelfKept(db);
    if extra.Some? { UpsertRunKept(db, Say(db, a, t, RunStep(Nfc(db, r), extra.value)), r, t, a); }
  }

  lemma CreateKept(db: Db, op: string, r: string, a: Attempt)
    ensures Kept(db, CreateRun(db, op, r, a).0)
  {
    hide NewEvent, Kept, Emit, UpsertRun, RunCreated;
    SelfKept(db);
    UpsertRunKept(db, RunEvent(db, op, r, a), r, "run_created", a);
  }

  lemma RunningKept(db: Db, i: string, w: string, a: Attempt)
    ensures Kept(db, MarkRunning(db, i, w, a))
  {
    hide NewEvent, Claimed, Kept, Emit, UpsertIntent;
    UpsertIntentKept(db, ClaimedEvent(db, i, w, a), i, "RUNNING", Some(w), a);
  }

  lemma DoneKept(db: Db, i: string, w: string, success: bool, error: Option<string>, message: string, a: Attempt)
    ensures Kept(db, MarkDone(db, i, w, success, error, message, a))
  {
    hide NewEvent, Outcome, OutcomeType, OutcomeStatus, Kept, Emit, UpsertIntent;
    UpsertIntentKept(db, OutcomeEvent(db, i, w, success, error, message, a), i, OutcomeStatus(success), Some(w), a);
  }

  lemma ConcludeKept(db: Db, j: Job, w: string, payload: Json, s: Snapshots, ids: seq<string>)
    ensures Kept(db, Conclude(db, j, w, payload, s, ids).0)
  {
    hide AppendLifecycle, MarkDone, Kept, ResultArtifact, OutcomeStatus;
    var x := InvokeWorker(j.response);
    var written := AppendLifecycle(db, j.runId, "artifact_written", ResultArtifact(db, j, w, payload, s), j.artifact).0;
    AppendKept(db, j.runId, "artifact_written", ResultArtifact(db, j, w, payload, s), j.artifact);
    DoneKept(written, j.intentId, w, x.success, x.error, x.message, j.final);
    KeptTrans(db, written, MarkDone(written, j.intentId, w, x.success, x.error, x.message, j.final));
  }

  lemma InvokeKept(db: Db, i: string, payload: Json)
    ensures Kept(db, Invoke(db, i, payload))
  {
  }

  lemma ExecuteKept(db: Db, j: Job, w: string, payload: Json, s: Snapshots, ids: seq<string>)
    ensures Kept(db, Execute(db, j, w, payload, s, ids).0)
  {
    hide AppendLifecycle, CreateRun, Conclude, Invoke, Kept;
    var created := CreateRun(db, j.intentId, j.runId, j.run).0;
    CreateKept(db, j.intentId, j.runId, j.run);
    var started := AppendLifecycle(created, j.runId, "state_running", Some(map[]), j.running).0;
    AppendKept(created, j.runId, "state_running", Some(map[]), j.running);
    KeptTrans(db, created, started);
    var invoked := Invoke(started, j.intentId, payload);
    InvokeKept(started, j.intentId, payload);
    KeptTrans(db, started, invoked);
    ConcludeKept(invoked, j, w, payload, s, ids);
    KeptTrans(db, invoked, Conclude(invoked, j, w, payload, s, ids).0);
  }

  lemma DispatchKept(db: Db, j: Job)
    ensures Kept(db, DispatchOnce(db, j).0)
  {
    hide Execute, MarkRunning, Begin, Kept;
    SelfKept(db);
    if Begin(db, j).Ready? {
      var w, running := Begin(db, j).worker, MarkRunning(db, j.intentId, Begin(db, j).worker, j.claim);
      RunningKept(db, j.intentId, w, j.claim);
      ExecuteKept(running, j, w, Begin(db, j).payload, NoSnapshots, []);
      KeptTrans(db, running, Execute(running, j, w, Begin(db, j).payload, NoSnapshots, []).0);
    }
  }

  lemma CaptureKept(db: Db, kind: Kind, i: string, o: Observation)
    ensures Kept(db, Capture(db, kind, i, o).0)
  {
    hide NewEvent, Snapshot, Kept, Emit, CaptureType, KindName;
    SelfKept(db);
    EmitKept(db, CaptureEvent(db, kind, i, o));
  }

  lemma FailKept(db: Db, i: string, w: string, error: Option<string>, message: string, a: Attempt, ids: seq<string>)
    ensures Kept(db, FailAfterCapture(db, i, w, error, message, a, ids).0)
  {
    hide MarkDone, Kept;
    SelfKept(db);
    DoneKept(db, i, w, false, error, message, a);
  }

  lemma ObservedKept(db: Db, j: Job, w: string, payload: Json, p: Observation, v: Observation)
    ensures Kept(db, Observed(db, j, w, payload, p, v).0)
  {
    hide Capture, FailAfterCapture, Execute, Kept;
    var (seen, error) := Capture(db, Provenance, j.intentId, p);
    CaptureKept(db, Provenance, j.intentId, p);
    if error.Some? {
      FailKept(seen, j.intentId, w, error, p.stderr, j.final, [p.id]);
      KeptTrans(db, seen, FailAfterCapture(seen, j.intentId, w, error, p.stderr, j.final, [p.id]).0);
    } else {
      var (known, error) := Capture(seen, Environment, j.intentId, v);
      CaptureKept(seen, Environment, j.intentId, v);
      KeptTrans(db, seen, known);
      if error.Some? {
        FailKept(known, j.intentId, w, error, v.stderr, j.final, [p.id, v.id]);
        KeptTrans(db, known, FailAfterCapture(known, j.intentId, w, error, v.stderr, j.final, [p.id, v.id]).0);
      } else {
        ExecuteKept(known, j, w, payload, Snapshots(p.id, v.id), [p.id, v.id]);
        KeptTrans(db, known, Execute(known, j, w, payload, Snapshots(p.id, v.id), [p.id, v.id]).0);
      }
    }
  }

  lemma ProvenanceKept(db: Db, j: Job, p: Observation, v: Observation)
    ensures Kept(db, DispatchWithProvenance(db, j, p, v).0)
  {
    hide Observed, MarkRunning, Begin, Kept;
    SelfKept(db);
    if Begin(db, j).Ready? {
      var w, running := Begin(db, j).worker, MarkRunning(db, j.intentId, Begin(db, j).worker, j.claim);
      RunningKept(db, j.intentId, w, j.claim);
      ObservedKept(running, j, w, Begin(db, j).payload, p, v);
      KeptTrans(db, running, Observed(running, j, w, Begin(db, j).payload, p, v).0);
    }
  }

  lemma OnlyLonger(db: Db, after: Db)
    requires Kept(db, after)
    ensures db.events <= after.events && after.cfg == db.cfg
  {
  }

  lemma SubmitKept(db: Db, r: Request, a: Attempt)
    ensures Kept(db, SubmitIntent(db, r, a).0)
  {
    hide NewEvent, Submission, StoredPayload, ValidateIntent, SubmitEvent;
  }

  lemma RegisterKept(db: Db, name: Arg, a: Attempt)
    ensures Kept(db, RegisterWorker(db, name, a).0)
  {
    hide Emit, RegisterEvent, RejectRegistration, Kept;
    SelfKept(db);
    forall error ensures Kept(db, RejectRegistration(db, name, error, a)) { RejectRegistrationKept(db, name, error, a); }
    if UsableName(name) { RegisteredKept(db, name.s, a); }
  }

  lemma RejectRegistrationKept(db: Db, name: Arg, error: string, a: Attempt)
    ensures Kept(db, RejectRegistration(db, name, error, a))
  {
    hide NewEvent, Registration;
  }

  lemma RegisteredKept(db: Db, name: string, a: Attempt)
    ensures Kept(db, Emit(db, RegisterEvent(db, name, a)).(
      registry := db.registry + {name},
      workers := if name in db.workers then db.workers else db.workers[name := WorkerRow(a.now, a.eventId)]))
  {
    hide RegisterEvent;
  }

  lemma SessionKept(db: Db, s: string, a: Attempt)
    ensures Kept(db, CreateSession(db, s, a).0)
  {
    hide NewEvent, SessionCreated;
  }

  lemma RejectMemberKept(db: Db, s: string, i: string, error: string, a: Attempt)
    ensures Kept(db, RejectMember(db, s, i, error, a).0)
  {
    hide NewEvent, SessionMember;
  }

  lemma InsertKept(db: Db, s: string, i: string, a: Attempt)
    ensures Kept(db, InsertMember(Emit(db, MemberEvent(db, s, i, a)), s, i, a))
  {
    hide MemberEvent, Sessions.Intents;
  }

  lemma AddKept(db: Db, s: string, i: string, a: Attempt)
    ensures Kept(db, AddIntent(db, s, i, a).0)
  {
    hide Kept, RejectMember, InsertMember, Emit, MemberEvent, Sessions.SessionExists, Sessions.MembershipExists, Inbox.StatusQuery;
    SelfKept(db);
    InsertKept(db, s, i, a);
    forall error ensures Kept(db, RejectMember(db, s, i, error, a).0) { RejectMemberKept(db, s, i, error, a); }
  }

  lemma RejectWriteKept(db: Db, i: string, path: Py, error: string, a: Attempt)
    ensures Kept(db, RejectWrite(db, i, path, error, a))
  {
    hide NewEvent, FileRejected, Normalize;
  }

  lemma StoreKept(db: Db, key: (string, string), content: Bytes, e: Event, artifacts: ArtifactTable)
    ensures Kept(db, db.(files := db.files[key := content]))
    ensures Kept(db, Emit(db.(files := db.files[key := content]), e).(artifacts := artifacts))
  {
  }

  lemma WriteKept(db: Db, i: string, path: Py, content: Option<Bytes>, artifact: string, a: Attempt)
    ensures Kept(db, WriteArtifact(db, i, path, content, artifact, a).0)
  {
    hide Kept, RejectWrite, Emit, FileEvent, NormalizeRelativePath;
    SelfKept(db);
    forall error ensures Kept(db, RejectWrite(db, i, path, error, a)) { RejectWriteKept(db, i, path, error, a); }
    if content.Some? && CheckedPath(path).Path? {
      var p := CheckedPath(path).normal;
      var stored := db.(files := db.files[(i, p) := content.value]);
      StoreKept(db, (i, p), content.value, FileEvent(stored, i, p, content.value, artifact, a),
        db.artifacts[artifact := ArtifactRow(i, p, db.cfg.digest(content.value), |content.value|, a.now, a.eventId)]);
    }
  }

  lemma ValidateKept(db: Db, operation: string, a: Attempt)
    ensures Kept(db, ValidateOperation(db, operation, a).0)
  {
    hide NewEvent, Validated;
  }

  lemma NamedKept(db: Db, name: string, j: Job)
    ensures Kept(db, DispatchByName(db, name, j).0)
  {
    hide Kept, DispatchOnce;
    SelfKept(db);
    DispatchKept(db, j.(worker := StrArg(name)));
  }

  lemma RestartKept(db: Db)
    ensures Kept(db, Restart(db))
  {
  }

  lemma RejectReleaseLonger(db: Db, i: string, owner: Arg, claim: Option<string>, error: string, a: Attempt)
    ensures Kept(db, RejectRelease(db, i, owner, claim, error, a).0)
  {
    hide NewEvent, ReleaseRejected;
  }

  lemma RejectClaimLonger(db: Db, i: string, owner: Arg, error: string, a: Attempt)
    ensures Kept(db, RejectClaim(db, i, owner, error, a).0)
  {
    hide NewEvent, ClaimRejected;
  }

  lemma RejectionFails(db: Db, i: string, owner: Arg, error: string, a: Attempt)
    ensures !RejectClaim(db, i, owner, error, a).1.success
  {
  }

  lemma ReleaseRejectionFails(db: Db, i: string, owner: Arg, claim: Option<string>, error: string, a: Attempt)
    ensures !RejectRelease(db, i, owner, claim, error, a).1.success
  {
  }

  lemma EmitLonger(db: Db, e: Event)
    ensures db.events <= Emit(db, e).events && Emit(db, e).cfg == db.cfg
  {
  }

  /** What a claim or a release does to the claims: nothing, or the row it names. */
  lemma ClaimEffect(db: Db, i: string, owner: Arg, claim: string, a: Attempt)
    ensures var (after, r) := ClaimIntent(db, i, owner, claim, a);
      && db.events <= after.events
      && (!r.success ==> Kept(db, after))
      && (r.success ==> ActiveClaim(db, i).None? && owner.StrArg? && after.claims == db.claims[i := ClaimRow(claim, owner.s, a.now, a.eventId)])
  {
    hide Inbox.StatusQuery, ActiveClaim, ClaimEvent, RejectClaim, Emit, Kept, Recorded;
    SelfKept(db);
    OnlyLonger(db, db);
    if UsableName(owner) { EmitLonger(db, ClaimEvent(db, i, owner.s, claim, a)); }
    forall error ensures Kept(db, RejectClaim(db, i, owner, error, a).0) && !RejectClaim(db, i, owner, error, a).1.success
      && db.events <= RejectClaim(db, i, owner, error, a).0.events
    {
      RejectClaimLonger(db, i, owner, error, a);
      RejectionFails(db, i, owner, error, a);
      OnlyLonger(db, RejectClaim(db, i, owner, error, a).0);
    }
  }

  lemma ReleaseEffect(db: Db, i: string, owner: Arg, a: Attempt)
    ensures var (after, r) := ReleaseClaim(db, i, owner, a);
      && db.events <= after.events && after.cfg == db.cfg
      && (!r.success ==> Kept(db, after))
      && (r.success ==> after.claims == db.claims - {i} && ActiveClaim(db, i).Some? && owner == StrArg(ActiveClaim(db, i).value.row.ownerId))
  {
    hide ActiveClaim, ReleaseEvent, RejectRelease, Emit, Kept, Recorded;
    SelfKept(db);
    OnlyLonger(db, db);
    if ActiveClaim(db, i).Some? && UsableName(owner) { EmitLonger(db, ReleaseEvent(db, i, owner.s, ActiveClaim(db, i).value.row.claimId, a)); }
    forall claim, error
      ensures Kept(db, RejectRelease(db, i, owner, claim, error, a).0) && !RejectRelease(db, i, owner, claim, error, a).1.success
      && db.events <= RejectRelease(db, i, owner, claim, error, a).0.events && RejectRelease(db, i, owner, claim, error, a).0.cfg == db.cfg
    {
      RejectReleaseLonger(db, i, owner, claim, error, a);
      ReleaseRejectionFails(db, i, owner, claim, error, a);
      OnlyLonger(db, RejectRelease(db, i, owner, claim, error, a).0);
    }
  }

  lemma TrackedEffect(db: Db, j: Job, b: Bracket)
    ensures db.events <= DispatchAndTrack(db, j, b).0.events
    ensures var claim := ClaimIntent(db, j.intentId, b.owner, b.claimId, b.claim);
      var after := DispatchAndTrack(db, j, b).0;
      if claim.1.success
      then
        && ActiveClaim(db, j.intentId).None? && b.owner.StrArg? && after.claims - {j.intentId} == db.claims - {j.intentId}
        && (j.intentId in after.claims ==> after.claims[j.intentId] == ClaimRow(b.claimId, b.owner.s, b.claim.now, b.claim.eventId))
      else after.claims == db.claims
  {
    hide ClaimIntent, DispatchOnce, ReleaseClaim, ActiveClaim, Released;
    ClaimEffect(db, j.intentId, b.owner, b.claimId, b.claim);
    var claimed := ClaimIntent(db, j.intentId, b.owner, b.claimId, b.claim).0;
    DispatchKept(claimed, j);
    ReleaseEffect(DispatchOnce(claimed, j).0, j.intentId, b.owner, b.release);
  }

  lemma ObservedTrackedEffect(db: Db, j: Job, p: Observation, v: Observation, b: Bracket)
    ensures db.events <= DispatchWithProvenanceAndTrack(db, j, p, v, b).0.events
    ensures var claim := ClaimIntent(db, j.intentId, b.owner, b.claimId, b.claim);
      var after := DispatchWithProvenanceAndTrack(db, j, p, v, b).0;
      if claim.1.success
      then
        && ActiveClaim(db, j.intentId).None? && b.owner.StrArg? && after.claims - {j.intentId} == db.claims - {j.intentId}
        && (j.intentId in after.claims ==> after.claims[j.intentId] == ClaimRow(b.claimId, b.owner.s, b.claim.now, b.claim.eventId))
      else after.claims == db.claims
  {
    hide ClaimIntent, DispatchWithProvenance, ReleaseClaim, ActiveClaim, Released;
    ClaimEffect(db, j.intentId, b.owner, b.claimId, b.claim);
    var claimed := ClaimIntent(db, j.intentId, b.owner, b.claimId, b.claim).0;
    ProvenanceKept(claimed, j, p, v);
    ReleaseEffect(DispatchWithProvenance(claimed, j, p, v).0, j.intentId, b.owner, b.release);
  }
}
