/** Run events keep the invariant: creation of a run and each further lifecycle event. */
module RunSteps {
  import opened Strings
  import opened Like
  import opened Json
  import opened Ledger
  import opened State
  import opened Payloads
  import opened Kernels
  import opened Appends
  import opened Invariant
  import opened Events
  import opened IntentSteps
  import Inbox
  import Claims
  import Lifecycle
  import Sessions
  import Workspace
  import Receipts

  /** The runs the ledger has seen are the bridged ones and the created ones. */
  lemma {:induction false} SeenRuns(cfg: Config, es: History, r: string)
    requires Good(cfg, es)
    ensures r in Lifecycle.ExpectedRuns(es) <==> r in Receipts.Bridge(es)
    ensures r in Lifecycle.ExpectedRuns(es) ==> r in Workspace.CreatedRuns(es) && r != ""
  {
    if es != [] {
      SeenRuns(cfg, es[..|es|-1], r);
      SeenStep(es[..|es|-1], es[|es|-1], r);
      hide *;
      Unsnoc(es);
    }
  }

  lemma SeenStep(es: History, e: Event, r: string)
    requires Shaped(e) && Legal(es, e)
    requires r in Lifecycle.ExpectedRuns(es) <==> r in Receipts.Bridge(es)
    requires r in Lifecycle.ExpectedRuns(es) ==> r in Workspace.CreatedRuns(es) && r != ""
    ensures r in Lifecycle.ExpectedRuns(es + [e]) <==> r in Receipts.Bridge(es + [e])
    ensures r in Lifecycle.ExpectedRuns(es + [e]) ==> r in Workspace.CreatedRuns(es + [e]) && r != ""
  {
    LegalMore(es, e);
    Snoc(es, e);
    Receipts.RunNamed(e);
    hide Shaped, Legal, Sessions.SessionShaped, Sessions.LegalSessionEvent, Workspace.LegalFileEvent,
      Workspace.LegalArtifactEvent, Receipts.ReceiptShaped, Receipts.Direct, Lifecycle.RunShaped;
  }

  /** The state query, the table and the transition check see the same run. */
  lemma RunFacts(db: Db, r: string)
    requires Inv(db) && r != ""
    ensures r in db.cfg.ids ==>
      Lifecycle.StateQuery(db.events, r) == if r in db.runs then Some(db.runs[r].state) else None
    ensures r in db.runs <==> r in Lifecycle.ExpectedRuns(db.events)
    ensures r in db.runs ==> db.runs[r] == Lifecycle.ExpectedRuns(db.events)[r]
    ensures r in db.runs ==> r in Receipts.Bridge(db.events) && r in Workspace.CreatedRuns(db.events)
    ensures r in Receipts.Bridge(db.events) ==> r in db.runs
  {
    assert Holds(LegalHistory, db) && Holds(LiveTables, db);
    hide Sane, FilesBacked, Accounted, Good, Lifecycle.AllRunShaped;
    GoodShaped(db.cfg, db.events);
    if r in db.cfg.ids {
      GoodExact(db.cfg, db.events, "run_id", r);
      Lifecycle.QueryIsFold(db.events, r);
    }
    Lifecycle.RebuildMatchesExpected(db.events);
    SeenRuns(db.cfg, db.events, r);
  }

  /** A run event that its checks accept keeps the invariant. */
  lemma RunEventKeeps(db: Db, e: Event, m: Fields, r: string, intent: Option<string>)
    requires Inv(db) && Basic(db.cfg, db.events, e) && Lifecycle.IsRunEvent(e.eventType)
    requires Reads(e, m, Some(r), intent, None) && Filed(m, intent) && Name(m, "run_id") == Some(r)
    requires Lifecycle.LegalRunEvent(db.events, e) && Workspace.LegalArtifactEvent(db.events, e)
    requires Receipts.LegalBridge(db.events, e)
    ensures Inv(Next(db, e))
  {
    hide Inv, Basic, Next, Lifecycle.LegalRunEvent, Workspace.LegalArtifactEvent, Receipts.LegalBridge, Finds, Filed;
    RunShape(e, m, Some(r), intent, None);
    ReceiptShape(e, m, Some(r), intent, None);
    RunFamily(e.eventType);
    LegalOutside(db.events, e);
    LegalFromParts(db.events, e);
    InvNext(db, e);
  }

  lemma RunFamily(t: string)
    requires Lifecycle.IsRunEvent(t)
    ensures !Inbox.IsIntentEvent(t) && !Inbox.IsSubmission(t) && !Claims.IsClaimEvent(t)
    ensures t != "worker_registered" && !IsSessionEvent(t) && t != Workspace.WRITTEN
  {
  }

  lemma RunNext(db: Db, e: Event, r: string)
    requires Lifecycle.IsRunEvent(e.eventType) && Name(Doc(e), "run_id") == Some(r)
    ensures Next(db, e) == Emit(db, e).(runs := db.runs[r := RunRow(e.eventType, e.id, e.createdAt)])
  {
    RunFamily(e.eventType);
    Still(db, e);
    hide Lifecycle.IsRunEvent, Inbox.InboxStep, Inbox.IntentStep, Claims.ClaimStep, Sessions.BookStep, Workspace.Insert;
  }

  // ---------------------------------------------------------------- create_run

  /** The run is bridged to the intent. */
  predicate BridgedTo(es: History, r: string, i: string) {
    r in Receipts.Bridge(es) && Receipts.Bridge(es)[r] == i
  }

  lemma CreatedReads(db: Db, op: string, r: string, a: Attempt)
    requires Rooted(db, a) && r in db.cfg.ids
    ensures var e, m := RunEvent(db, op, r, a), RunCreated(r, Nfc(db, op));
      && Basic(db.cfg, db.events, e) && e.id == a.eventId && e.createdAt == a.now && e.eventType == "run_created"
      && e.operationId == Some(op) && Doc(e) == m && Reads(e, m, Some(r), None, None) && Filed(m, None)
      && Text(m, "run_id") == Some(r)
  {
    hide Rooted, Finds, Basic, NewEvent, Written;
    RunFinds(r, Nfc(db, op));
    NewRow(db, a, "run_created", RunCreated(r, Nfc(db, op)), None, Some(op), Some(r), None, None);
  }

  lemma CreatedLegal(es: History, e: Event, r: string, op: string)
    requires e.eventType == "run_created" && Text(Doc(e), "run_id") == Some(r) && r != "" && Filed(Doc(e), None)
    requires e.operationId == Some(op) && op != ""
    requires r !in Lifecycle.ExpectedRuns(es) && r !in Receipts.Bridge(es)
    ensures Lifecycle.LegalRunEvent(es, e) && Workspace.LegalArtifactEvent(es, e) && Receipts.LegalBridge(es, e)
    ensures BridgedTo(es + [e], r, op)
  {
    hide Lifecycle.ExpectedRuns, Receipts.DirectIn;
    Snoc(es, e);
  }

  /** `create_run` keeps the invariant and bridges the run to its operation. */
  lemma CreateKeeps(db: Db, op: string, r: string, a: Attempt)
    requires Inv(db) && Usable(db.events, a) && r in db.cfg.ids && r != "" && r !in db.runs
    ensures Inv(CreateRun(db, op, r, a).0)
    ensures CreateRun(db, op, r, a).1.success ==> BridgedTo(CreateRun(db, op, r, a).0.events, r, op)
  {
    hide Inv, Usable, Rooted, Basic, Next, Reads, RunEvent, RunCreated, Filed, BridgedTo, Nfc;
    if op != "" && a.ok {
      RunFacts(db, r);
      Roots(db, a);
      CreatedReads(db, op, r, a);
      var e := RunEvent(db, op, r, a);
      CreatedLegal(db.events, e, r, op);
      assert Lifecycle.IsRunEvent(e.eventType);
      RunEventKeeps(db, e, Doc(e), r, None);
      RunNext(db, e, r);
    }
  }

  // ---------------------------------------------------------------- append_lifecycle_event

  /** A typed artifact is part of the extra payload. */
  predicate TypedArtifact(extra: Fields) {
    "artifact" in extra && extra["artifact"].Obj? && Text(extra["artifact"].fields, "type").Some?
    && "content" in extra["artifact"].fields
  }

  /** What a lifecycle event may carry: its own run, at most the run's own intent, and an artifact
      when it says that one was written. */
  ghost predicate Carried(es: History, r: string, t: string, extra: Fields, intent: Option<string>) {
    && Finds(RunStep(r, extra), Some(r), intent, None) && Filed(RunStep(r, extra), intent)
    && (intent.Some? ==> BridgedTo(es, r, intent.value))
    && (t == "artifact_written" ==> TypedArtifact(extra))
  }

  lemma StepReads(db: Db, r: string, t: string, extra: Fields, a: Attempt, intent: Option<string>)
    requires Rooted(db, a) && t != "" && Carried(db.events, r, t, extra, intent)
    requires r in db.cfg.ids && InUse(db.cfg.ids, intent)
    ensures var e, m := Say(db, a, t, RunStep(r, extra)), RunStep(r, extra);
      && Basic(db.cfg, db.events, e) && e.id == a.eventId && e.createdAt == a.now && e.eventType == t
      && Doc(e) == m && Reads(e, m, Some(r), intent, None) && Text(m, "run_id") == Some(r)
  {
    hide Rooted, Finds, Basic, NewEvent, Written, BridgedTo, Filed;
    NewRow(db, a, t, RunStep(r, extra), None, None, Some(r), intent, None);
  }

  lemma StepLegal(es: History, e: Event, r: string, t: string, extra: Fields, intent: Option<string>)
    requires e.eventType == t && Appendable(t) && IsDoc(e) && Doc(e) == RunStep(r, extra) && r != ""
    requires Carried(es, r, t, extra, intent)
    requires r in Lifecycle.ExpectedRuns(es) && Lifecycle.Follows(Lifecycle.ExpectedRuns(es)[r].state, t)
    requires r in Receipts.Bridge(es) && r in Workspace.CreatedRuns(es)
    ensures Lifecycle.LegalRunEvent(es, e) && Workspace.LegalArtifactEvent(es, e) && Receipts.LegalBridge(es, e)
    ensures Receipts.Bridge(es + [e]) == Receipts.Bridge(es)
  {
    hide Lifecycle.ExpectedRuns, Receipts.DirectIn, Finds, Workspace.CreatedRuns, Lifecycle.Follows;
    Snoc(es, e);
  }

  /** The event is recorded: the run exists and may move on. */
  lemma StepKeeps(db: Db, r: string, t: string, extra: Fields, a: Attempt, intent: Option<string>)
    requires Inv(db) && Usable(db.events, a) && a.ok && Id(db, r) && r != "" && Appendable(t)
    requires Carried(db.events, r, t, extra, intent) && InUse(db.cfg.ids, intent)
    requires r in db.runs && Lifecycle.Follows(db.runs[r].state, t)
    ensures var after := UpsertRun(Emit(db, Say(db, a, t, RunStep(r, extra))), r, t, a);
      Inv(after) && Receipts.Bridge(after.events) == Receipts.Bridge(db.events)
  {
    hide Inv, Usable, Rooted, Basic, Next, Reads, RunStep, Lifecycle.Follows, NewEvent, Plain;
    RunFacts(db, r);
    Roots(db, a);
    StepReads(db, r, t, extra, a, intent);
    var e := Say(db, a, t, RunStep(r, extra));
    StepLegal(db.events, e, r, t, extra, intent);
    CarriedFiled(db.events, r, t, extra, intent);
    RunEventKeeps(db, e, Doc(e), r, intent);
    RunNext(db, e, r);
  }

  lemma CarriedFiled(es: History, r: string, t: string, extra: Fields, intent: Option<string>)
    requires Carried(es, r, t, extra, intent) && Appendable(t)
    ensures Filed(RunStep(r, extra), intent) && Lifecycle.IsRunEvent(t)
  {
    hide Finds, BridgedTo;
  }

  /** `append_lifecycle_event` keeps the invariant and every bridge. */
  lemma AppendKeeps(db: Db, r: string, t: string, extra: Option<Fields>, a: Attempt, intent: Option<string>)
    requires Inv(db) && Usable(db.events, a) && Id(db, r) && InUse(db.cfg.ids, intent)
    requires extra.Some? ==> Carried(db.events, r, t, extra.value, intent)
    ensures Inv(AppendLifecycle(db, r, t, extra, a).0)
    ensures Receipts.Bridge(AppendLifecycle(db, r, t, extra, a).0.events) == Receipts.Bridge(db.events)
  {
    hide Inv, Usable, Rooted, Emit, UpsertRun, NewEvent, RunStep, Carried, Appendable, Lifecycle.Follows;
    var state := Lifecycle.StateQuery(db.events, r);
    if Appendable(t) && r != "" && state.Some? && Lifecycle.Follows(state.value, t) && extra.Some? && a.ok {
      RunFacts(db, r);
      StepKeeps(db, r, t, extra.value, a, intent);
    }
  }

  /** Caller data without the searched keys may be carried. */
  lemma QuietCarried(es: History, r: string, t: string, extra: Fields)
    requires NoIdKeys(Obj(extra)) && (t == "artifact_written" ==> TypedArtifact(extra))
    ensures Carried(es, r, t, extra, None)
  {
    hide Finds, BridgedTo, NoIdKeys;
    StepFinds(r, extra);
    QuietFiled(r, extra);
  }

  lemma QuietFiled(r: string, extra: Fields)
    requires NoIdKeys(Obj(extra))
    ensures Filed(RunStep(r, extra), None)
  {
    NoOwnIds(extra);
    QuietMembers(extra);
    hide NoIdKeys, Straight;
    if "content" in extra { NoNamedIntent(extra["content"]); }
    if "artifact" in extra {
      NoNamedIntent(extra["artifact"]);
      if extra["artifact"].Obj? && "content" in extra["artifact"].fields {
        QuietMembers(extra["artifact"].fields);
        NoNamedIntent(extra["artifact"].fields["content"]);
      }
    }
  }

  lemma NoNamedIntent(j: Json)
    requires NoIdKeys(j)
    ensures j.Obj? ==> "intent_id" !in j.fields
  {
    hide NoIdKeys;
    if j.Obj? { NoOwnIds(j.fields); }
  }
}
