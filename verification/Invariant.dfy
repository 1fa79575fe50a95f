/** The state invariant: which event may follow a history, what a history of such events satisfies,
    and the live tables as the fold of the ledger. */
module Invariant {
  import opened Strings
  import opened Like
  import opened Json
  import opened Ledger
  import opened State
  import Inbox
  import Claims
  import Lifecycle
  import Registry
  import Sessions
  import Workspace
  import Receipts

  // ---------------------------------------------------------------- legal histories

  /** The event mentions ids in use only, and looking one of them up finds it exactly when it mentions it. */
  ghost predicate Legible(ids: iset<string>, e: Event) {
    forall k, s :: IsIdKey(k) ==>
      (Mentioned(e, k, s) ==> s in ids) && (s in ids ==> (Refers(e, k, s) <==> Mentioned(e, k, s)))
  }

  /** A new row: fresh id, linked to the head, no column empty, no earlier than the last one. */
  ghost predicate Basic(cfg: Config, es: History, e: Event) {
    && !IdOf(es, e.id) && e.id != "" && Linked(cfg.hash, Head(es), e) && IsDoc(e) && e.payload == Written(e.payload.value)
    && e.eventType != "" && e.workerId != "" && e.createdAt != "" && e.parentHash != "" && e.eventHash != ""
    && (es != [] ==> !Less(e.createdAt, es[|es|-1].createdAt))
    && Legible(cfg.ids, e)
  }

  /** A submission enters the inbox, with a document that has none of the searched keys. */
  ghost predicate QuietSubmission(e: Event) {
    Inbox.IsSubmission(e.eventType) ==> Inbox.Enters(e) && NoIdKeys(Doc(e)["payload"])
  }

  ghost predicate Shaped(e: Event) {
    && Lifecycle.RunShaped(e) && Inbox.IntentShaped(e) && Sessions.SessionShaped(e) && Receipts.ReceiptShaped(e)
    && QuietSubmission(e)
  }

  /** The event may follow the history, in the eyes of every check. */
  ghost predicate Legal(es: History, e: Event) {
    && Lifecycle.LegalRunEvent(es, e)
    && Inbox.LegalIntentEvent(es, e) && Inbox.SameWorker(es, e)
    && Claims.LegalClaimEvent(es, e)
    && Sessions.LegalSessionEvent(es, e)
    && Workspace.LegalFileEvent(es, e) && Workspace.LegalArtifactEvent(es, e)
    && Receipts.LegalBridge(es, e)
  }

  ghost predicate Good(cfg: Config, es: History) {
    es == [] ||
    (Good(cfg, es[..|es|-1]) && Basic(cfg, es[..|es|-1], es[|es|-1]) && Shaped(es[|es|-1])
     && Legal(es[..|es|-1], es[|es|-1]))
  }

  lemma Extend(cfg: Config, es: History, e: Event)
    requires Good(cfg, es) && Basic(cfg, es, e) && Shaped(e) && Legal(es, e)
    ensures Good(cfg, es + [e])
  {
    hide Basic, Shaped, Legal;
    Snoc(es, e);
  }

  // ---------------------------------------------------------------- what legal histories satisfy

  lemma ShapedAppend(es: History, e: Event)
    requires Shaped(e)
    requires Lifecycle.AllRunShaped(es) && Inbox.AllIntentShaped(es)
    ensures Lifecycle.AllRunShaped(es + [e]) && Inbox.AllIntentShaped(es + [e])
  {
    hide Lifecycle.RunShaped, Inbox.IntentShaped, Sessions.SessionShaped, Receipts.ReceiptShaped, QuietSubmission;
  }

  lemma {:induction false} GoodShaped(cfg: Config, es: History)
    requires Good(cfg, es)
    ensures Lifecycle.AllRunShaped(es) && Inbox.AllIntentShaped(es)
  {
    hide Basic, Shaped, Legal, Lifecycle.RunShaped, Inbox.IntentShaped;
    if es != [] {
      GoodShaped(cfg, es[..|es|-1]);
      ShapedAppend(es[..|es|-1], es[|es|-1]);
      Unsnoc(es);
    }
  }

  /** What one event contributes to the run, intent and claim checks. */
  lemma LegalParts(es: History, e: Event)
    requires Shaped(e) && Legal(es, e)
    ensures Lifecycle.LegalRunEvent(es, e) && (Lifecycle.IsRunEvent(e.eventType) ==> Lifecycle.RunId(e).Some?)
    ensures Inbox.LegalIntentEvent(es, e) && Inbox.SameWorker(es, e) && Claims.LegalClaimEvent(es, e)
  {
    hide Lifecycle.LegalRunEvent, Inbox.LegalIntentEvent, Inbox.SameWorker, Claims.LegalClaimEvent, Lifecycle.RunId,
      Sessions.LegalSessionEvent, Workspace.LegalFileEvent, Workspace.LegalArtifactEvent, Receipts.LegalBridge,
      Inbox.IntentShaped, Sessions.SessionShaped, Receipts.ReceiptShaped, QuietSubmission;
  }

  /** Run transitions and run ids pass their checks. */
  lemma {:induction false} GoodRuns(cfg: Config, es: History)
    requires Good(cfg, es)
    ensures Lifecycle.TransitionErrors(es) == [] && Lifecycle.PresenceErrors(es) == []
  {
    hide Basic, Shaped, Legal, Lifecycle.LegalRunEvent, Lifecycle.IsRunEvent, Lifecycle.RunId;
    if es != [] {
      GoodRuns(cfg, es[..|es|-1]);
      LegalParts(es[..|es|-1], es[|es|-1]);
    }
  }

  /** Intent transitions, claims of intents and worker names pass their checks. */
  lemma {:induction false} GoodIntents(cfg: Config, es: History)
    requires Good(cfg, es)
    ensures Inbox.TransitionErrors(es) == [] && Inbox.WorkerErrors(es) == []
  {
    hide Basic, Shaped, Legal, Inbox.LegalIntentEvent, Inbox.SameWorker;
    if es != [] {
      GoodIntents(cfg, es[..|es|-1]);
      LegalParts(es[..|es|-1], es[|es|-1]);
    }
  }

  lemma {:induction false} GoodClaimsOf(cfg: Config, es: History, i: string)
    requires Good(cfg, es) && i != ""
    ensures Claims.CleanFor(es, i)
  {
    hide Basic, Shaped, Legal, Claims.LegalClaimEvent;
    if es != [] {
      GoodClaimsOf(cfg, es[..|es|-1], i);
      LegalParts(es[..|es|-1], es[|es|-1]);
      Claims.LegalKeepsClean(es[..|es|-1], es[|es|-1], i);
      Unsnoc(es);
    }
  }

  /** The claim history passes its check. */
  lemma GoodClaims(cfg: Config, es: History)
    requires Good(cfg, es)
    ensures Claims.CleanClaims(es)
  {
    hide Claims.CleanFor, Good;
    forall i | i != "" ensures Claims.CleanFor(es, i) { GoodClaimsOf(cfg, es, i); }
  }

  lemma LegalMore(es: History, e: Event)
    requires Shaped(e) && Legal(es, e)
    ensures Sessions.SessionShaped(e) && Sessions.LegalSessionEvent(es, e)
    ensures Workspace.LegalFileEvent(es, e) && Workspace.LegalArtifactEvent(es, e)
    ensures Receipts.ReceiptShaped(e) && Lifecycle.RunShaped(e) && Receipts.LegalBridge(es, e)
  {
    hide Lifecycle.LegalRunEvent, Inbox.LegalIntentEvent, Inbox.SameWorker, Claims.LegalClaimEvent,
      Sessions.LegalSessionEvent, Workspace.LegalFileEvent, Workspace.LegalArtifactEvent, Receipts.LegalBridge,
      Lifecycle.RunShaped, Inbox.IntentShaped, Sessions.SessionShaped, Receipts.ReceiptShaped, QuietSubmission;
  }

  /** Sessions, files and receipts are legal in their own modules' sense. */
  lemma {:induction false} GoodRest(cfg: Config, es: History)
    requires Good(cfg, es)
    ensures Sessions.LegalSessions(es) && Workspace.LegalFiles(es) && Receipts.LegalReceipts(es)
  {
    hide Basic, Shaped, Legal, Sessions.SessionShaped, Sessions.LegalSessionEvent, Workspace.LegalFileEvent,
      Workspace.LegalArtifactEvent, Receipts.ReceiptShaped, Receipts.LegalBridge, Lifecycle.RunShaped;
    if es != [] {
      GoodRest(cfg, es[..|es|-1]);
      LegalMore(es[..|es|-1], es[|es|-1]);
    }
  }

  /** The chain is valid and ids are distinct. */
  lemma {:induction false} GoodChain(cfg: Config, es: History)
    requires Good(cfg, es)
    ensures ValidChain(cfg.hash, es) && DistinctIds(es)
  {
    hide Shaped, Legal, Written, IsDoc, Legible;
    if es != [] {
      var front, e := es[..|es|-1], es[|es|-1];
      GoodChain(cfg, front);
      assert !IdOf(front, e.id);
      forall j | 0 <= j < |front| ensures es[j].id != e.id { assert front[j] == es[j]; }
      forall j, k | 0 <= j < k < |es| ensures es[j].id != es[k].id {
        if k < |front| { assert front[j] == es[j] && front[k] == es[k]; }
      }
    }
  }

  // ---------------------------------------------------------------- what the lookups find

  lemma {:induction false} GoodLegible(cfg: Config, es: History, n: nat)
    requires Good(cfg, es) && n < |es|
    ensures Legible(cfg.ids, es[n])
  {
    hide Shaped, Legal, Legible, Linked, IsDoc, IdOf, Written;
    if n < |es| - 1 { GoodLegible(cfg, es[..|es|-1], n); }
  }

  /** For ids in use every lookup is exact. */
  lemma GoodExact(cfg: Config, es: History, k: string, s: string)
    requires Good(cfg, es) && IsIdKey(k) && s in cfg.ids
    ensures Exact(es, k, s)
  {
    hide Good, Refers, Mentioned;
    forall n | 0 <= n < |es| ensures Refers(es[n], k, s) <==> Mentioned(es[n], k, s) { GoodLegible(cfg, es, n); }
  }

  /** The intents and runs of the ledger are ids in use. */
  lemma {:induction false} KnownInUse(cfg: Config, es: History, i: string)
    requires Good(cfg, es) && i in Inbox.KnownIntents(es)
    ensures i in cfg.ids
  {
    hide Shaped, Legal, Refers, Mentioned, Linked, IsDoc, IdOf, Written, Inbox.IsSubmission;
    if i !in Inbox.KnownIntents(es[..|es|-1]) {
      var e := es[|es|-1];
      assert Legible(cfg.ids, e);
      Receipts.Named(e, "intent_id", i);
    } else {
      KnownInUse(cfg, es[..|es|-1], i);
    }
  }

  lemma {:induction false} RunsInUse(cfg: Config, es: History, i: string, r: string)
    requires Good(cfg, es) && r in Receipts.RunsOf(es, i)
    ensures r in cfg.ids
  {
    hide Shaped, Legal, Refers, Mentioned, Linked, IsDoc, IdOf, Written, Receipts.RunOf;
    if r !in Receipts.RunsOf(es[..|es|-1], i) {
      var e := es[|es|-1];
      assert Legible(cfg.ids, e);
      Receipts.Named(e, "run_id", r);
    } else {
      RunsInUse(cfg, es[..|es|-1], i, r);
    }
  }

  lemma GoodExactFor(cfg: Config, es: History, i: string)
    requires Good(cfg, es) && i in cfg.ids
    ensures Receipts.ExactFor(es, i)
  {
    hide Good, Exact, Receipts.RunsOf;
    GoodExact(cfg, es, "intent_id", i);
    forall r | r in Receipts.RunsOf(es, i) ensures Exact(es, "run_id", r) {
      RunsInUse(cfg, es, i, r);
      GoodExact(cfg, es, "run_id", r);
    }
  }

  // ---------------------------------------------------------------- tables as folds

  /** The live tables are the folds of the ledger. */
  ghost predicate Synced(db: Db) {
    && db.runs == Lifecycle.Runs(db.events) && db.intents == Inbox.Intents(db.events)
    && db.inbox == Inbox.Entries(db.events) && db.claims == Claims.Claims(db.events)
    && db.workers == Registry.Workers(db.events)
    && Sessions.Book(db.sessions, db.members) == Sessions.Books(db.events)
    && db.artifacts == Workspace.Artifacts(db.events)
  }

  /** The state after the event, every table moved by its own rebuild step. */
  function Next(db: Db, e: Event): Db {
    var b := Sessions.BookStep(Sessions.Book(db.sessions, db.members), e);
    db.(events := db.events + [e],
        runs := Lifecycle.RunStep(db.runs, e), intents := Inbox.IntentStep(db.intents, e),
        inbox := Inbox.InboxStep(db.inbox, e), claims := Claims.ClaimStep(db.claims, e),
        workers := Registry.WorkerStep(db.workers, e),
        sessions := b.sessions, members := b.members,
        artifacts := Workspace.Insert(db.artifacts, e))
  }

  lemma NextSynced(db: Db, e: Event)
    requires Synced(db)
    ensures Synced(Next(db, e))
  {
    Snoc(db.events, e);
    hide Lifecycle.RunStep, Inbox.IntentStep, Inbox.InboxStep, Claims.ClaimStep, Registry.WorkerStep,
      Sessions.BookStep, Workspace.Insert;
  }

  ghost predicate Core(db: Db) {
    Good(db.cfg, db.events) && Synced(db)
  }

  lemma CoreNext(db: Db, e: Event)
    requires Core(db) && Basic(db.cfg, db.events, e) && Shaped(e) && Legal(db.events, e)
    ensures Core(Next(db, e))
  {
    hide Good, Synced, Basic, Shaped, Legal;
    Extend(db.cfg, db.events, e);
    NextSynced(db, e);
    NextEvents(db, e);
  }

  lemma NextEvents(db: Db, e: Event)
    ensures Next(db, e).events == db.events + [e] && Next(db, e).cfg == db.cfg
  {
  }

  // ---------------------------------------------------------------- what each kind of event moves

  predicate IsSessionEvent(t: string) {
    t == Sessions.CREATED || t == Sessions.ADDED
  }

  /** Event types that move no table and that no check looks at. */
  predicate Noise(t: string) {
    && !Lifecycle.IsRunEvent(t) && !Inbox.IsIntentEvent(t) && !Claims.IsClaimEvent(t) && t != "worker_registered"
    && !IsSessionEvent(t) && t != Workspace.WRITTEN
  }

  /** The table moves only for its own events. */
  lemma RunsStill(t: RunTable, e: Event)
    requires !Lifecycle.IsRunEvent(e.eventType)
    ensures Lifecycle.RunStep(t, e) == t
  {
  }

  lemma IntentsStill(t: IntentTable, e: Event)
    requires !Inbox.IsIntentEvent(e.eventType)
    ensures Inbox.IntentStep(t, e) == t
  {
  }

  lemma InboxStill(x: InboxTable, e: Event)
    requires !Inbox.IsSubmission(e.eventType)
    ensures Inbox.InboxStep(x, e) == x
  {
  }

  lemma ClaimsStill(t: ClaimTable, e: Event)
    requires !Claims.IsClaimEvent(e.eventType)
    ensures Claims.ClaimStep(t, e) == t
  {
  }

  lemma WorkersStill(t: WorkerTable, e: Event)
    requires e.eventType != "worker_registered"
    ensures Registry.WorkerStep(t, e) == t
  {
  }

  lemma BookStill(b: Sessions.Book, e: Event)
    requires !IsSessionEvent(e.eventType)
    ensures Sessions.BookStep(b, e) == b
  {
    hide Sessions.IdIn;
  }

  lemma ArtifactsStill(t: ArtifactTable, e: Event)
    requires e.eventType != Workspace.WRITTEN
    ensures Workspace.Insert(t, e) == t
  {
  }

  /** Everything but the tables of the event's own family stays. */
  lemma Still(db: Db, e: Event)
    ensures var n := Next(db, e);
      && n.cfg == db.cfg && n.events == db.events + [e]
      && n.files == db.files && n.registry == db.registry && n.restarts == db.restarts && n.invoked == db.invoked
      && (!Lifecycle.IsRunEvent(e.eventType) ==> n.runs == db.runs)
      && (!Inbox.IsIntentEvent(e.eventType) ==> n.intents == db.intents)
      && (!Inbox.IsSubmission(e.eventType) ==> n.inbox == db.inbox)
      && (!Claims.IsClaimEvent(e.eventType) ==> n.claims == db.claims)
      && (e.eventType != "worker_registered" ==> n.workers == db.workers)
      && (!IsSessionEvent(e.eventType) ==> n.sessions == db.sessions && n.members == db.members)
      && (e.eventType != Workspace.WRITTEN ==> n.artifacts == db.artifacts)
  {
    var t, b := e.eventType, Sessions.Book(db.sessions, db.members);
    if !Lifecycle.IsRunEvent(t) { RunsStill(db.runs, e); }
    if !Inbox.IsIntentEvent(t) { IntentsStill(db.intents, e); }
    if !Inbox.IsSubmission(t) { InboxStill(db.inbox, e); }
    if !Claims.IsClaimEvent(t) { ClaimsStill(db.claims, e); }
    if t != "worker_registered" { WorkersStill(db.workers, e); }
    if !IsSessionEvent(t) { BookStill(b, e); }
    if t != Workspace.WRITTEN { ArtifactsStill(db.artifacts, e); }
    hide Lifecycle.RunStep, Inbox.IntentStep, Inbox.InboxStep, Claims.ClaimStep, Registry.WorkerStep,
      Sessions.BookStep, Workspace.Insert, Lifecycle.IsRunEvent, Inbox.IsIntentEvent, Inbox.IsSubmission,
      Claims.IsClaimEvent, IsSessionEvent;
  }

  /** Only the checks of the event's own family can object to it. */
  lemma LegalOutside(es: History, e: Event)
    ensures !Lifecycle.IsRunEvent(e.eventType) ==> Lifecycle.LegalRunEvent(es, e) && Workspace.LegalArtifactEvent(es, e)
    ensures !Inbox.IsIntentEvent(e.eventType) ==> Inbox.LegalIntentEvent(es, e) && Inbox.SameWorker(es, e) && Inbox.IntentShaped(e) && QuietSubmission(e)
    ensures !Claims.IsClaimEvent(e.eventType) ==> Claims.LegalClaimEvent(es, e)
    ensures !IsSessionEvent(e.eventType) ==> Sessions.LegalSessionEvent(es, e) && Sessions.SessionShaped(e)
    ensures e.eventType != Workspace.WRITTEN ==> Workspace.LegalFileEvent(es, e)
    ensures !Lifecycle.IsRunEvent(e.eventType) && Lifecycle.RunId(e).None? ==> Receipts.LegalBridge(es, e)
  {
    hide Sessions.IdIn, Sessions.AuditedId, Receipts.Direct, Workspace.Describes, Workspace.CarriesFile, Workspace.Inserted, NoIdKeys,
      Workspace.CarriesArtifact, Mentioned, Inbox.StatusOf, Workspace.Taken;
  }

  // ---------------------------------------------------------------- the invariant

  predicate Ascii(s: string) {
    forall k :: 0 <= k < |s| ==> s[k] < '\U{80}'
  }

  /** What the model assumes of the functions it leaves open and of the ids in use. */
  ghost predicate Sane(cfg: Config) {
    && Distinguished(cfg.ids) && Idempotent(cfg.nfc) && (forall s :: Ascii(s) ==> cfg.nfc(s) == s)
    && (forall h :: cfg.hash(h) != "") && forall b :: cfg.digest(b) != ""
  }

  /** Every artifact row is backed by a file of its size and digest. */
  ghost predicate FilesBacked(db: Db) {
    forall a :: a in db.artifacts ==> Workspace.Backed(db.cfg.digest, db.files, db.artifacts[a])
  }

  /** Every invocation came after its intent's `intent_claimed` event. */
  ghost predicate ClaimedFirst(es: History, invoked: seq<Invocation>) {
    forall k :: 0 <= k < |invoked| ==>
      invoked[k].at <= |es| && invoked[k].intentId in Inbox.ClaimedIntents(es[..invoked[k].at])
  }

  /** No intent was given to a worker twice. */
  ghost predicate DistinctIntents(invoked: seq<Invocation>) {
    forall j, k :: 0 <= j < k < |invoked| ==> invoked[j].intentId != invoked[k].intentId
  }

  /** Every worker was given the payload its intent was submitted with. */
  ghost predicate GivenPayloads(es: History, invoked: seq<Invocation>) {
    forall k :: 0 <= k < |invoked| ==> Inbox.ReadPayload(es, invoked[k].intentId) == Some(invoked[k].inputs)
  }

  ghost predicate Accounted(es: History, invoked: seq<Invocation>) {
    ClaimedFirst(es, invoked) && DistinctIntents(invoked) && GivenPayloads(es, invoked)
  }

  /** The names in memory have been registered; while one process has run, no name twice. */
  ghost predicate RegistryKnown(db: Db) {
    && db.registry <= db.workers.Keys
    && (db.restarts == 0 ==> db.workers.Keys == db.registry && Registry.DuplicateErrors(db.events) == [])
  }

  /** What the invariant speaks of. */
  datatype Aspect = OpenFunctions | LegalHistory | LiveTables | StoredFiles | Invocations | KnownNames

  ghost predicate Holds(a: Aspect, db: Db) {
    match a
    case OpenFunctions => Sane(db.cfg)
    case LegalHistory => Good(db.cfg, db.events)
    case LiveTables => Synced(db)
    case StoredFiles => FilesBacked(db)
    case Invocations => Accounted(db.events, db.invoked)
    case KnownNames => RegistryKnown(db)
  }

  /** The state invariant. */
  ghost predicate Inv(db: Db) {
    forall a: Aspect :: Holds(a, db)
  }

  /** Everything the invariant says, at once. */
  lemma Aspects(db: Db)
    requires Inv(db)
    ensures Sane(db.cfg) && Core(db) && FilesBacked(db) && Accounted(db.events, db.invoked) && RegistryKnown(db)
  {
    hide Sane, Good, Synced, FilesBacked, Accounted, RegistryKnown;
    assert Holds(OpenFunctions, db) && Holds(LegalHistory, db) && Holds(LiveTables, db);
    assert Holds(StoredFiles, db) && Holds(Invocations, db) && Holds(KnownNames, db);
  }

  lemma FromAspects(db: Db)
    requires Sane(db.cfg) && Core(db) && FilesBacked(db) && Accounted(db.events, db.invoked) && RegistryKnown(db)
    ensures Inv(db)
  {
    hide Sane, Good, Synced, FilesBacked, Accounted, RegistryKnown;
  }

  /** The core does not depend on the process memory or the files. */
  lemma CoreIgnores(db: Db, other: Db)
    requires Core(db) && other == db.(registry := other.registry, restarts := other.restarts, files := other.files, invoked := other.invoked)
    ensures Core(other)
  {
  }

  lemma FilesIgnore(db: Db, other: Db)
    requires FilesBacked(db) && other.artifacts == db.artifacts && other.files == db.files && other.cfg == db.cfg
    ensures FilesBacked(other)
  {
  }

  lemma RegistryIgnores(db: Db, other: Db)
    requires RegistryKnown(db) && other.registry == db.registry && other.workers == db.workers
    requires other.restarts == db.restarts && other.events == db.events
    ensures RegistryKnown(other)
  {
  }

  lemma InvokedStays(es: History, invoked: seq<Invocation>, e: Event)
    requires Accounted(es, invoked)
    ensures Accounted(es + [e], invoked)
  {
    forall k | 0 <= k < |invoked|
      ensures invoked[k].at <= |es + [e]| && invoked[k].intentId in Inbox.ClaimedIntents((es + [e])[..invoked[k].at])
    {
      assert (es + [e])[..invoked[k].at] == es[..invoked[k].at];
    }
    forall k | 0 <= k < |invoked| ensures Inbox.ReadPayload(es + [e], invoked[k].intentId) == Some(invoked[k].inputs) {
      Inbox.PayloadStays(es, e, invoked[k].intentId);
    }
    hide Inbox.ReadPayload, Inbox.ClaimedIntents;
  }

  lemma NoDuplicate(es: History, e: Event)
    requires Registry.DuplicateErrors(es) == [] && !Registry.Repeats(es, e)
    ensures Registry.DuplicateErrors(es + [e]) == []
  {
    hide Registry.Registered, Registry.Workers;
    Snoc(es, e);
  }

  /** A legal event that writes no file and registers no worker keeps the invariant. */
  lemma InvNext(db: Db, e: Event)
    requires Inv(db) && Basic(db.cfg, db.events, e) && Shaped(e) && Legal(db.events, e)
    requires e.eventType != Workspace.WRITTEN && e.eventType != "worker_registered"
    ensures Inv(Next(db, e))
  {
    hide Inv, Holds, Sane, Basic, Shaped, Legal, Next, Core, Accounted, Registry.WorkerStep, Workspace.Backed, Registry.DuplicateErrors;
    Aspects(db);
    CoreNext(db, e);
    Still(db, e);
    InvokedStays(db.events, db.invoked, e);
    if db.restarts == 0 { NoDuplicate(db.events, e); }
    FromAspects(Next(db, e));
  }
}
