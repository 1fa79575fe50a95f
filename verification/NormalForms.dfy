/** What names that are not in normal form do: the live tables keep a caller's argument, the ledger its
    normal form, and a table agrees with history exactly when the two are the same. */
module NormalForms {
  import opened Strings
  import opened Json
  import opened Ledger
  import opened State
  import opened Payloads
  import opened Kernels
  import opened Appends
  import opened Frames
  import opened Invariant
  import opened Events
  import opened IntentSteps
  import opened RegistrySteps
  import Inbox
  import Lifecycle
  import Registry

  // ---------------------------------------------------------------- registrations

  /** The insert in the table under the given name, the rebuild's under its normal form. */
  lemma RegisteredStep(db: Db, name: string, a: Attempt)
    ensures var e, k := RegisterEvent(db, name, a), Nfc(db, name);
      Registry.Workers(db.events + [e]) ==
        if k == "" || k in Registry.Workers(db.events) then Registry.Workers(db.events)
        else Registry.Workers(db.events)[k := WorkerRow(a.now, a.eventId)]
  {
    var e := RegisterEvent(db, name, a);
    assert Text(Doc(e), "worker_name") == Some(Nfc(db, name));
    Snoc(db.events, e);
    hide Written;
  }

  /** After a registration that is recorded the worker table is the rebuild's if and only if the name was given in
      normal form, or neither of the two inserts has anything to add. */
  lemma LiveRegistrationExact(db: Db, name: string, a: Attempt)
    requires Inv(db) && RegisterWorker(db, StrArg(name), a).1.success
    ensures var after := RegisterWorker(db, StrArg(name), a).0;
      after.workers == Registry.Workers(after.events) <==>
        Plain(db, name) || (name in db.workers && (Nfc(db, name) == "" || Nfc(db, name) in db.workers))
  {
    hide Inv, Registry.Workers, RegisterEvent, RejectRegistration;
    WorkersSynced(db);
    RegisteredStep(db, name, a);
    var after := RegisterWorker(db, StrArg(name), a).0;
    var k, row := Nfc(db, name), WorkerRow(a.now, a.eventId);
    if name !in db.workers { assert name in after.workers && after.workers[name] == row; }
    if k != "" && k !in db.workers { assert k in Registry.Workers(after.events); }
  }

  // ---------------------------------------------------------------- the worker of a running intent

  /** The intent's live row names the worker as given, the rebuild's row its normal form; the tables agree otherwise. */
  ghost predicate Drifted(db: Db, i: string, w: string) {
    var t := Inbox.Intents(db.events);
    i in t && t[i].workerName == Some(Nfc(db, w)) && db.intents == t[i := t[i].(workerName := Some(w))]
  }

  lemma DriftedExact(db: Db, i: string, w: string)
    requires Drifted(db, i, w)
    ensures db.intents == Inbox.Intents(db.events) <==> Plain(db, w)
  {
    hide Inbox.Intents;
    assert db.intents[i].workerName == Some(w);
  }

  /** Drifted, and the intent still open. */
  ghost predicate Drifting(db: Db, i: string, w: string) {
    Drifted(db, i, w) && !Inbox.Closed(db.intents, i)
  }

  /** An event of the intent sets both rows. */
  lemma SetDrifts(db: Db, after: Db, e: Event, i: string, w: string, status: string)
    requires after == Emit(db, e).(intents := db.intents[i := IntentRow(status, Some(w), e.createdAt, e.id)])
    requires Inbox.Sets(e, i, IntentRow(status, Some(Nfc(db, w)), e.createdAt, e.id)) && !Inbox.Closed(Inbox.Intents(db.events), i)
    requires db.intents == Inbox.Intents(db.events) || Drifted(db, i, w)
    ensures Drifted(after, i, w) && after.intents[i].status == status
  {
    hide Inbox.Sets, Inbox.Intents, Inbox.Closed;
    Inbox.UpsertIsStep(db.events, e, i, IntentRow(status, Some(Nfc(db, w)), e.createdAt, e.id));
  }

  lemma ClaimedSets(db: Db, i: string, w: string, a: Attempt)
    requires i != "" && Plain(db, i)
    ensures var e := ClaimedEvent(db, i, w, a);
      Inbox.Sets(e, i, IntentRow("RUNNING", Some(Nfc(db, w)), a.now, a.eventId)) && e.createdAt == a.now && e.id == a.eventId
  {
    var e := ClaimedEvent(db, i, w, a);
    assert Doc(e) == Claimed(i, Nfc(db, w)) && Text(Doc(e), "worker_name") == Some(Nfc(db, w));
  }

  lemma OutcomeReads(i: string, status: string, w: string, error: Option<string>, message: string)
    ensures var m := Outcome(i, status, w, error, message);
      Name(m, "intent_id") == (if i == "" then None else Some(i)) && Text(m, "status") == Some(status) && Text(m, "worker_name") == Some(w)
  {
  }

  lemma OutcomeSets(db: Db, i: string, w: string, success: bool, error: Option<string>, message: string, a: Attempt)
    requires i != "" && Plain(db, i)
    ensures var e := OutcomeEvent(db, i, w, success, error, message, a);
      && Inbox.Sets(e, i, IntentRow(OutcomeStatus(success), Some(Nfc(db, w)), a.now, a.eventId))
      && e.createdAt == a.now && e.id == a.eventId
  {
    OutcomeReads(i, OutcomeStatus(success), Nfc(db, w), NfcOption(db, error), Nfc(db, message));
    hide Outcome, Text, Name;
    var e := OutcomeEvent(db, i, w, success, error, message, a);
    assert Doc(e) == Outcome(i, OutcomeStatus(success), Nfc(db, w), NfcOption(db, error), Nfc(db, message));
  }

  /** Claiming an open intent for a worker. */
  lemma RunningDrifts(db: Db, i: string, w: string, a: Attempt)
    requires db.intents == Inbox.Intents(db.events) && !Inbox.Closed(db.intents, i) && i != "" && Plain(db, i)
    ensures Drifting(MarkRunning(db, i, w, a), i, w)
  {
    hide Inbox.Intents, Inbox.Sets, ClaimedEvent, Emit;
    ClaimedSets(db, i, w, a);
    EmitSame(db, ClaimedEvent(db, i, w, a));
    SetDrifts(db, MarkRunning(db, i, w, a), ClaimedEvent(db, i, w, a), i, w, "RUNNING");
  }

  lemma EmitSame(db: Db, e: Event)
    ensures Emit(db, e).intents == db.intents && Emit(db, e).cfg == db.cfg && Emit(db, e).events == db.events + [e]
  {
  }

  lemma DoneDrifts(db: Db, i: string, w: string, success: bool, error: Option<string>, message: string, a: Attempt)
    requires Drifting(db, i, w) && i != "" && Plain(db, i)
    ensures Drifted(MarkDone(db, i, w, success, error, message, a), i, w)
  {
    hide Inbox.Intents, Inbox.Sets, OutcomeEvent, OutcomeStatus, Emit;
    OutcomeSets(db, i, w, success, error, message, a);
    EmitSame(db, OutcomeEvent(db, i, w, success, error, message, a));
    SetDrifts(db, MarkDone(db, i, w, success, error, message, a), OutcomeEvent(db, i, w, success, error, message, a), i, w, OutcomeStatus(success));
  }

  /** The intent table and its fold stay as they are. */
  ghost predicate Aside(db: Db, after: Db) {
    after.intents == db.intents && after.cfg == db.cfg && Inbox.Intents(after.events) == Inbox.Intents(db.events)
  }

  lemma AsideDrifts(db: Db, after: Db, i: string, w: string)
    requires Drifting(db, i, w) && Aside(db, after)
    ensures Drifting(after, i, w)
  {
    hide Inbox.Intents;
  }

  lemma OtherEvent(es: History, e: Event)
    requires !Inbox.IsIntentEvent(e.eventType)
    ensures Inbox.Intents(es + [e]) == Inbox.Intents(es)
  {
    Snoc(es, e);
    IntentsStill(Inbox.Intents(es), e);
    hide Inbox.IntentStep;
  }

  /** An event of another kind and a run's row. */
  lemma RunAside(db: Db, e: Event, r: string, t: string, a: Attempt)
    requires !Inbox.IsIntentEvent(e.eventType)
    ensures Aside(db, Emit(db, e)) && Aside(db, UpsertRun(Emit(db, e), r, t, a))
  {
    hide Inbox.Intents;
    OtherEvent(db.events, e);
  }

  lemma SelfAside(db: Db)
    ensures Aside(db, db)
  {
  }

  lemma RowType(db: Db, a: Attempt, t: string, m: Fields, operationId: Option<string>)
    ensures NewEvent(db, a, t, Obj(m), None, operationId).eventType == t
  {
  }

  lemma CreateAside(db: Db, op: string, r: string, a: Attempt)
    ensures Aside(db, CreateRun(db, op, r, a).0)
  {
    hide Aside, RunCreated, NewEvent, Emit, UpsertRun;
    SelfAside(db);
    RowType(db, a, "run_created", RunCreated(r, Nfc(db, op)), Some(op));
    RunAside(db, RunEvent(db, op, r, a), r, "run_created", a);
  }

  lemma AppendAside(db: Db, r: string, t: string, extra: Option<Fields>, a: Attempt)
    ensures Aside(db, AppendLifecycle(db, r, t, extra, a).0)
  {
    hide Aside, RunStep, NewEvent, Emit, UpsertRun, Lifecycle.StateQuery, Lifecycle.Follows;
    SelfAside(db);
    if Appendable(t) && extra.Some? {
      RowType(db, a, t, RunStep(Nfc(db, r), extra.value), None);
      RunAside(db, Say(db, a, t, RunStep(Nfc(db, r), extra.value)), r, t, a);
    }
  }

  lemma CaptureAside(db: Db, kind: Kind, i: string, o: Observation)
    ensures Aside(db, Capture(db, kind, i, o).0)
  {
    hide Aside, Snapshot, NewEvent, Emit;
    SelfAside(db);
    var t := CaptureType(kind, o.error.Some?);
    RowType(db, o.a, t, Snapshot(KindName(kind), o.id, Nfc(db, i), o.content), Some(i));
    RunAside(db, CaptureEvent(db, kind, i, o), "", t, o.a);
  }

  lemma InvokeAside(db: Db, i: string, payload: Json)
    ensures Aside(db, Invoke(db, i, payload))
  {
  }

  lemma ConcludeDrifts(db: Db, j: Job, w: string, payload: Json, s: Snapshots, ids: seq<string>)
    requires Drifting(db, j.intentId, w) && j.intentId != "" && Plain(db, j.intentId)
    ensures Drifted(Conclude(db, j, w, payload, s, ids).0, j.intentId, w)
  {
    hide Drifted, Inbox.Closed, AppendLifecycle, MarkDone, ResultArtifact, OutcomeStatus;
    var extra, x := ResultArtifact(db, j, w, payload, s), InvokeWorker(j.response);
    AppendAside(db, j.runId, "artifact_written", extra, j.artifact);
    var written := AppendLifecycle(db, j.runId, "artifact_written", extra, j.artifact).0;
    AsideDrifts(db, written, j.intentId, w);
    DoneDrifts(written, j.intentId, w, x.success, x.error, x.message, j.final);
  }

  lemma ExecuteDrifts(db: Db, j: Job, w: string, payload: Json, s: Snapshots, ids: seq<string>)
    requires Drifting(db, j.intentId, w) && j.intentId != "" && Plain(db, j.intentId)
    ensures Drifted(Execute(db, j, w, payload, s, ids).0, j.intentId, w)
  {
    hide Drifted, Inbox.Closed, CreateRun, AppendLifecycle, Invoke, Conclude;
    var created := CreateRun(db, j.intentId, j.runId, j.run).0;
    CreateAside(db, j.intentId, j.runId, j.run);
    AsideDrifts(db, created, j.intentId, w);
    var started := AppendLifecycle(created, j.runId, "state_running", Some(map[]), j.running).0;
    AppendAside(created, j.runId, "state_running", Some(map[]), j.running);
    AsideDrifts(created, started, j.intentId, w);
    var invoked := Invoke(started, j.intentId, payload);
    InvokeAside(started, j.intentId, payload);
    AsideDrifts(started, invoked, j.intentId, w);
    ConcludeDrifts(invoked, j, w, payload, s, ids);
  }

  lemma ObservedDrifts(db: Db, j: Job, w: string, payload: Json, p: Observation, v: Observation)
    requires Drifting(db, j.intentId, w) && j.intentId != "" && Plain(db, j.intentId)
    ensures Drifted(Observed(db, j, w, payload, p, v).0, j.intentId, w)
  {
    hide Drifted, Inbox.Closed, Capture, MarkDone, Execute;
    var seen := Capture(db, Provenance, j.intentId, p).0;
    CaptureAside(db, Provenance, j.intentId, p);
    AsideDrifts(db, seen, j.intentId, w);
    var known := Capture(seen, Environment, j.intentId, v).0;
    CaptureAside(seen, Environment, j.intentId, v);
    AsideDrifts(seen, known, j.intentId, w);
    DoneDrifts(seen, j.intentId, w, false, Capture(db, Provenance, j.intentId, p).1, p.stderr, j.final);
    DoneDrifts(known, j.intentId, w, false, Capture(seen, Environment, j.intentId, v).1, v.stderr, j.final);
    ExecuteDrifts(known, j, w, payload, Snapshots(p.id, v.id), [p.id, v.id]);
  }

  lemma BeginOpen(db: Db, j: Job)
    requires Inv(db) && Id(db, j.intentId) && Begin(db, j).Ready?
    ensures db.intents == Inbox.Intents(db.events) && !Inbox.Closed(db.intents, j.intentId) && j.intentId != ""
  {
    assert Holds(LiveTables, db);
    hide Inv, Good, Inbox.StatusQuery, Inbox.ReadPayload;
    IntentFacts(db, j.intentId);
  }

  /** Once a dispatch has claimed its intent, wherever it stops then, the intent table is the rebuild's if and only
      if the worker's name was given in normal form. */
  lemma LiveWorkerExact(db: Db, j: Job)
    requires Inv(db) && Id(db, j.intentId) && Begin(db, j).Ready? && j.claim.ok
    ensures var after := DispatchOnce(db, j).0;
      after.intents == Inbox.Intents(after.events) <==> Plain(db, Begin(db, j).worker)
  {
    hide Inv, Begin, MarkRunning, Execute, Inbox.Intents, Inbox.Closed, Drifted;
    BeginOpen(db, j);
    var w := Begin(db, j).worker;
    RunningDrifts(db, j.intentId, w, j.claim);
    RunningFrame(db, j.intentId, w, j.claim);
    ExecuteDrifts(MarkRunning(db, j.intentId, w, j.claim), j, w, Begin(db, j).payload, NoSnapshots, []);
    DriftedExact(DispatchOnce(db, j).0, j.intentId, w);
    DispatchKept(db, j);
  }

  /** The same with snapshots. */
  lemma ObservedWorkerExact(db: Db, j: Job, p: Observation, v: Observation)
    requires Inv(db) && Id(db, j.intentId) && Begin(db, j).Ready? && j.claim.ok
    ensures var after := DispatchWithProvenance(db, j, p, v).0;
      after.intents == Inbox.Intents(after.events) <==> Plain(db, Begin(db, j).worker)
  {
    hide Inv, Begin, MarkRunning, Observed, Inbox.Intents, Inbox.Closed, Drifted;
    BeginOpen(db, j);
    var w := Begin(db, j).worker;
    RunningDrifts(db, j.intentId, w, j.claim);
    RunningFrame(db, j.intentId, w, j.claim);
    ObservedDrifts(MarkRunning(db, j.intentId, w, j.claim), j, w, Begin(db, j).payload, p, v);
    DriftedExact(DispatchWithProvenance(db, j, p, v).0, j.intentId, w);
    ProvenanceKept(db, j, p, v);
  }
}
