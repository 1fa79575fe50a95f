/** Registrations and restarts keep the invariant. */
module RegistrySteps {
  import opened Strings
  import opened Json
  import opened Ledger
  import opened State
  import opened Payloads
  import opened Kernels
  import opened Appends
  import opened Invariant
  import opened Events
  import opened IntentSteps
  import Inbox
  import Claims
  import Lifecycle
  import Registry
  import Sessions
  import Workspace
  import Receipts

  lemma RegisteredReads(db: Db, name: string, a: Attempt)
    requires Rooted(db, a) && Plain(db, name)
    ensures var e, m := RegisterEvent(db, name, a), Registration(name, "REGISTERED", None);
      && Basic(db.cfg, db.events, e) && e.id == a.eventId && e.createdAt == a.now && e.eventType == "worker_registered"
      && Doc(e) == m && Reads(e, m, None, None, None) && Filed(m, None) && Text(m, "worker_name") == Some(name)
  {
    hide Rooted, Finds, Basic, NewEvent, Written;
    RegistrationFinds(name, "REGISTERED", None);
    NewRow(db, a, "worker_registered", Registration(name, "REGISTERED", None), None, None, None, None, None);
  }

  lemma RegisteredCore(db: Db, e: Event, m: Fields)
    requires Inv(db) && Basic(db.cfg, db.events, e) && e.eventType == "worker_registered"
    requires Reads(e, m, None, None, None) && Filed(m, None)
    ensures Core(Next(db, e)) && Next(db, e) == Emit(db, e).(workers := Registry.WorkerStep(db.workers, e))
  {
    hide Good, Synced;
    assert Holds(LegalHistory, db) && Holds(LiveTables, db);
    RunShape(e, m, None, None, None);
    ReceiptShape(e, m, None, None, None);
    LegalOutside(db.events, e);
    LegalFromParts(db.events, e);
    CoreNext(db, e);
    Still(db, e);
    hide Core, Basic, FilesBacked, Accounted, Registry.WorkerStep, Inbox.InboxStep, Inbox.IntentStep, Claims.ClaimStep,
      Sessions.BookStep, Workspace.Insert;
  }

  /** A name not held in memory is registered. */
  lemma RegisteredKeeps(db: Db, name: string, a: Attempt)
    requires Inv(db) && Usable(db.events, a) && a.ok && Plain(db, name) && name != "" && name !in db.registry
    ensures Inv(RegisterWorker(db, StrArg(name), a).0)
  {
    hide Inv, Holds, Usable, Basic, Core, Reads, Registration, Filed, NewEvent, Next, FilesBacked, Accounted, Sane,
      Registry.DuplicateErrors;
    Aspects(db);
    var e := RegisterEvent(db, name, a);
    Roots(db, a);
    RegisteredReads(db, name, a);
    RegisteredCore(db, e, Doc(e));
    InvokedStays(db.events, db.invoked, e);
    WorkersSynced(db);
    var after := RegisterWorker(db, StrArg(name), a).0;
    CoreIgnores(Next(db, e), after);
    FilesIgnore(db, after);
    if db.restarts == 0 { NoDuplicate(db.events, e); }
    FromAspects(after);
  }

  lemma WorkersSynced(db: Db)
    requires Inv(db)
    ensures db.workers == Registry.Workers(db.events)
  {
    assert Holds(LiveTables, db);
    hide Good, FilesBacked, Accounted, Sane;
  }

  /** `register_worker` keeps the invariant, accepted or refused. */
  lemma RegisterKeeps(db: Db, name: Arg, a: Attempt)
    requires Inv(db) && Usable(db.events, a) && Plain(db, Recorded(name))
    ensures Inv(RegisterWorker(db, name, a).0)
  {
    hide Inv, Usable, Rooted, Emit, RegisterEvent, RejectRegistration, Plain;
    forall error ensures Inv(RejectRegistration(db, name, error, a)) { RejectRegistrationKeeps(db, name, error, a); }
    if UsableName(name) && name.s !in db.registry && a.ok { RegisteredKeeps(db, name.s, a); }
  }

  lemma RestartKeeps(db: Db)
    requires Inv(db)
    ensures Inv(Restart(db))
  {
    hide Inv, Holds, Core, FilesBacked, Accounted, Sane;
    Aspects(db);
    CoreIgnores(db, Restart(db));
    FilesIgnore(db, Restart(db));
    FromAspects(Restart(db));
  }
}
