/** What holds over all runs of the system: what the live tables are, what executes, who may claim,
    and what never changes. */
module Guarantees {
  import opened Strings
  import opened Like
  import opened Json
  import opened Ledger
  import opened State
  import opened Payloads
  import opened Paths
  import opened Kernels
  import opened Appends
  import opened Frames
  import opened Invariant
  import opened Events
  import opened IntentSteps
  import opened RunSteps
  import opened ClaimSteps
  import opened RegistrySteps
  import opened SessionSteps
  import opened FileSteps
  import opened DispatchSteps
  import opened System
  import Inbox
  import Claims
  import Lifecycle
  import Registry
  import Sessions
  import Workspace
  import Receipts
  import opened Auditor

  // ---------------------------------------------------------------- live refines replay

  /** In every reachable state each table kept live equals what its rebuild computes from the ledger alone. */
  lemma LiveIsReplay(cfg: Config, states: seq<Db>, ops: seq<Op>, k: nat)
    requires Behaviour(cfg, states, ops) && k < |states|
    ensures var db := states[k];
      && db.runs == Lifecycle.Runs(db.events) && db.intents == Inbox.Intents(db.events)
      && db.inbox == Inbox.Entries(db.events) && db.claims == Claims.Claims(db.events)
      && db.workers == Registry.Workers(db.events) && db.artifacts == Workspace.Artifacts(db.events)
      && Sessions.Book(db.sessions, db.members) == Sessions.Books(db.events)
  {
    hide Behaviour;
    Reachable(cfg, states, ops, k);
    assert Holds(LiveTables, states[k]);
  }

  /** In every reachable state, whatever appends failed on the way, the audit reports nothing; after
      restarts the one thing it can report is a name registered again. */
  lemma AuditClean(cfg: Config, states: seq<Db>, ops: seq<Op>, k: nat, receipts: ReceiptTable, workspace: bool)
    requires Behaviour(cfg, states, ops) && k < |states| && FreshReceipts(receipts, states[k].events)
    ensures var db := states[k];
      && (db.restarts == 0 ==> Clean(db, receipts, workspace))
      && (Clean(db, receipts, workspace) <==> Registry.DuplicateErrors(db.events) == [])
  {
    hide Inv, Behaviour, Clean, FreshReceipts, Registry.DuplicateErrors;
    Reachable(cfg, states, ops, k);
    InvClean(states[k], receipts, workspace);
  }

  // ---------------------------------------------------------------- append-only

  predicate TouchesClaims(op: Op) {
    op.Claim? || op.Release? || op.DispatchTracked? || op.DispatchObservedTracked?
  }

  /** Operations that neither claim nor release leave the claims alone. */
  lemma ApplyKept(db: Db, op: Op)
    requires !TouchesClaims(op)
    ensures Kept(db, Apply(db, op))
  {
    hide Kept, SubmitIntent, CreateRun, AppendLifecycle, DispatchOnce, DispatchByName, DispatchWithProvenance, RegisterWorker,
      Extra, CreateSession, AddIntent, WriteArtifact, ValidateOperation;
    match op
    case Submit(r, a) => SubmitKept(db, r, a);
    case StartRun(operation, r, a) => CreateKept(db, operation, r, a);
    case Advance(r, t, extra, a) => AppendKept(db, r, t, Extra(db.cfg.nfc, extra), a);
    case Dispatch(j) => DispatchKept(db, j);
    case DispatchNamed(name, j) => NamedKept(db, name, j);
    case DispatchObserved(j, p, v) => ProvenanceKept(db, j, p, v);
    case Register(name, a) => RegisterKept(db, name, a);
    case NewProcess => RestartKept(db);
    case OpenSession(s, a) => SessionKept(db, s, a);
    case AddToSession(s, i, a) => AddKept(db, s, i, a);
    case Write(i, path, content, artifact, a) => WriteKept(db, i, path, content, artifact, a);
    case Validate(operation, a) => ValidateKept(db, operation, a);
  }

  /** Whatever is called, the ledger only grows. */
  lemma ApplyGrows(db: Db, op: Op)
    ensures db.events <= Apply(db, op).events
  {
    hide Kept, ClaimIntent, ReleaseClaim, DispatchAndTrack, DispatchWithProvenanceAndTrack, ActiveClaim;
    if TouchesClaims(op) {
      match op
      case Claim(i, owner, claim, a) => ClaimEffect(db, i, owner, claim, a);
      case Release(i, owner, a) => ReleaseEffect(db, i, owner, a);
      case DispatchTracked(j, b) => TrackedEffect(db, j, b);
      case DispatchObservedTracked(j, p, v, b) => ObservedTrackedEffect(db, j, p, v, b);
    } else {
      ApplyKept(db, op);
      OnlyLonger(db, Apply(db, op));
    }
  }

  lemma ApplyConfig(db: Db, op: Op)
    ensures Apply(db, op).cfg == db.cfg
  {
    hide ClaimIntent, ReleaseClaim, DispatchOnce, DispatchWithProvenance, ActiveClaim, Released, RejectClaim, RejectRelease;
    if TouchesClaims(op) {
      match op
      case Claim(i, owner, claim, a) => ClaimFrame(db, i, owner, claim, a);
      case Release(i, owner, a) => ReleaseEffect(db, i, owner, a);
      case DispatchTracked(j, b) =>
        var claimed := ClaimIntent(db, j.intentId, b.owner, b.claimId, b.claim).0;
        ClaimFrame(db, j.intentId, b.owner, b.claimId, b.claim);
        DispatchKept(claimed, j);
        ReleaseEffect(DispatchOnce(claimed, j).0, j.intentId, b.owner, b.release);
      case DispatchObservedTracked(j, p, v, b) =>
        var claimed := ClaimIntent(db, j.intentId, b.owner, b.claimId, b.claim).0;
        ClaimFrame(db, j.intentId, b.owner, b.claimId, b.claim);
        ProvenanceKept(claimed, j, p, v);
        ReleaseEffect(DispatchWithProvenance(claimed, j, p, v).0, j.intentId, b.owner, b.release);
    } else {
      ApplyKept(db, op);
    }
  }

  /** Later states of a behaviour have longer ledgers, over the same functions. */
  lemma {:induction false} LedgerGrows(cfg: Config, states: seq<Db>, ops: seq<Op>, j: nat, k: nat)
    requires Behaviour(cfg, states, ops) && j <= k < |states|
    ensures states[j].events <= states[k].events && states[k].cfg == states[j].cfg
  {
    hide Apply, Allowed, Sane;
    if j < k {
      LedgerGrows(cfg, states, ops, j, k - 1);
      assert StepAt(states, ops, k - 1);
      ApplyGrows(states[k-1], ops[k-1]);
      ApplyConfig(states[k-1], ops[k-1]);
    }
  }

  lemma SameConfig(cfg: Config, states: seq<Db>, ops: seq<Op>, k: nat)
    requires Behaviour(cfg, states, ops) && k < |states|
    ensures states[k].cfg == cfg
  {
    hide StepAt, Sane;
    LedgerGrows(cfg, states, ops, 0, k);
  }

  // ---------------------------------------------------------------- execution

  /** An intent with an `intent_claimed` event is an id in use. */
  lemma {:induction false} ClaimedInUse(cfg: Config, es: History, i: string)
    requires Good(cfg, es) && i in Inbox.ClaimedIntents(es)
    ensures i in cfg.ids
  {
    hide Shaped, Invariant.Legal, Refers, Mentioned, Linked, IsDoc, IdOf, Written;
    if i in Inbox.ClaimedIntents(es[..|es|-1]) {
      ClaimedInUse(cfg, es[..|es|-1], i);
    } else {
      assert Legible(cfg.ids, es[|es|-1]);
      Receipts.Named(es[|es|-1], "intent_id", i);
    }
  }

  /** What is read back from the ledger is the payload the inbox holds. */
  lemma {:induction false} ReadIsEntered(cfg: Config, es: History, i: string)
    requires Good(cfg, es) && i in cfg.ids && Inbox.FirstSubmission(es, i).Some?
    ensures i in Inbox.Entries(es) && "payload" in Doc(Inbox.FirstSubmission(es, i).value)
    ensures Inbox.Entries(es)[i].payload == Doc(Inbox.FirstSubmission(es, i).value)["payload"]
  {
    hide Basic, Shaped, Invariant.Legal, Refers, Mentioned;
    var front, e := es[..|es|-1], es[|es|-1];
    if Inbox.FirstSubmission(front, i).Some? {
      ReadIsEntered(cfg, front, i);
    } else {
      GoodLegible(cfg, es, |es| - 1);
      if i in Inbox.Entries(front) { Inbox.EntriesSeen(front, i); }
      SubmissionEnters(front, e, i);
    }
  }

  lemma SubmissionEnters(front: History, e: Event, i: string)
    requires Shaped(e) && Invariant.Legal(front, e) && e.eventType == "intent_submitted" && Mentioned(e, "intent_id", i)
    ensures Inbox.Enters(e) && Inbox.IntentId(e) == Some(i) && i !in Inbox.LastTypes(front)
  {
    LegalParts(front, e);
    SubmissionShape(e);
    assert Inbox.IntentShaped(e);
    hide Mentioned, Inbox.LastTypes;
  }

  /** Every worker was given the payload that its intent's inbox entry holds. */
  ghost predicate EnteredPayloads(db: Db) {
    forall n :: 0 <= n < |db.invoked| ==>
      db.invoked[n].intentId in db.inbox && db.inbox[db.invoked[n].intentId].payload == db.invoked[n].inputs
  }

  lemma InvEntered(db: Db)
    requires Inv(db)
    ensures EnteredPayloads(db)
  {
    hide Inv, Sane, Good, FilesBacked, Accounted, RegistryKnown, Inbox.Entries, Inbox.FirstSubmission;
    Aspects(db);
    forall n | 0 <= n < |db.invoked|
      ensures db.invoked[n].intentId in db.inbox && db.inbox[db.invoked[n].intentId].payload == db.invoked[n].inputs
    {
      EnteredAt(db.cfg, db.events, db.invoked, n);
    }
  }

  lemma EnteredAt(cfg: Config, es: History, invoked: seq<Invocation>, n: nat)
    requires Good(cfg, es) && Accounted(es, invoked) && n < |invoked|
    ensures invoked[n].intentId in Inbox.Entries(es) && Inbox.Entries(es)[invoked[n].intentId].payload == invoked[n].inputs
  {
    hide Good, Inbox.ClaimedIntents, Inbox.Entries, Inbox.FirstSubmission;
    var x := invoked[n];
    ClaimedGrows(es, x.at, x.intentId);
    ClaimedInUse(cfg, es, x.intentId);
    ReadIsEntered(cfg, es, x.intentId);
  }

  /** In every reachable state each intent has been given to a worker at most once, always after its
      `intent_claimed` event, and with the payload it was submitted with, which is that of its inbox entry. */
  lemma AtMostOnce(cfg: Config, states: seq<Db>, ops: seq<Op>, k: nat)
    requires Behaviour(cfg, states, ops) && k < |states|
    ensures var db := states[k];
      && ClaimedFirst(db.events, db.invoked) && DistinctIntents(db.invoked) && GivenPayloads(db.events, db.invoked)
      && EnteredPayloads(db)
  {
    hide Behaviour, EnteredPayloads;
    Reachable(cfg, states, ops, k);
    InvEntered(states[k]);
    assert Holds(Invocations, states[k]);
  }

  /** Once an intent is rejected, completed or failed, its status is the same in every later state. */
  lemma TerminalForever(cfg: Config, states: seq<Db>, ops: seq<Op>, j: nat, k: nat, i: string)
    requires Behaviour(cfg, states, ops) && j <= k < |states|
    requires Inbox.StatusQuery(states[j].events, i).Some? && Inbox.Terminal(Inbox.StatusQuery(states[j].events, i).value)
    ensures Inbox.StatusQuery(states[k].events, i) == Inbox.StatusQuery(states[j].events, i)
  {
    hide Behaviour, Inbox.StatusQuery;
    LedgerGrows(cfg, states, ops, j, k);
    var more := states[k].events[|states[j].events|..];
    assert states[k].events == states[j].events + more;
    Inbox.TerminalIsFinal(states[j].events, more, i);
  }

  // ---------------------------------------------------------------- claim exclusion

  /** The claim on `i` is held, in the table and in the ledger's replay. */
  ghost predicate Held(db: Db, i: string, claim: string, owner: string) {
    && i in db.claims && db.claims[i].claimId == claim && db.claims[i].ownerId == owner
    && ActiveClaim(db, i).Some? && ActiveClaim(db, i).value.row.ownerId == owner
  }

  /** While a claim is held nobody can claim, and nobody but its owner can release. */
  lemma HeldExcludes(db: Db, i: string, claim: string, owner: string, other: Arg, c: string, a: Attempt)
    requires Held(db, i, claim, owner)
    ensures !ClaimIntent(db, i, other, c, a).1.success
    ensures other != StrArg(owner) ==> !ReleaseClaim(db, i, other, a).1.success
  {
    hide ClaimIntent, ReleaseClaim, ActiveClaim;
    ClaimEffect(db, i, other, c, a);
    ReleaseEffect(db, i, other, a);
  }

  /** A successful release of `i` by its owner. */
  predicate Frees(db: Db, op: Op, i: string) {
    op.Release? && op.i == i && ReleaseClaim(db, i, op.owner, op.a).1.success
  }

  lemma ClaimStays(db: Db, op: Op, i: string)
    requires Inv(db) && i in db.cfg.ids && i in db.claims && !Frees(db, op, i)
    ensures i in Apply(db, op).claims && Apply(db, op).claims[i] == db.claims[i]
  {
    hide Inv, ClaimIntent, ReleaseClaim, DispatchAndTrack, DispatchWithProvenanceAndTrack, ActiveClaim;
    ClaimFacts(db, i);
    if TouchesClaims(op) {
      match op
      case Claim(k, owner, claim, a) => ClaimEffect(db, k, owner, claim, a);
      case Release(k, owner, a) => ReleaseEffect(db, k, owner, a);
      case DispatchTracked(j, b) =>
        TrackedEffect(db, j, b);
        if ClaimIntent(db, j.intentId, b.owner, b.claimId, b.claim).1.success {
          Elsewhere(db.claims, DispatchAndTrack(db, j, b).0.claims, j.intentId, i);
        }
      case DispatchObservedTracked(j, p, v, b) =>
        ObservedTrackedEffect(db, j, p, v, b);
        if ClaimIntent(db, j.intentId, b.owner, b.claimId, b.claim).1.success {
          Elsewhere(db.claims, DispatchWithProvenanceAndTrack(db, j, p, v, b).0.claims, j.intentId, i);
        }
    } else {
      ApplyKept(db, op);
    }
  }

  lemma Elsewhere(t: ClaimTable, u: ClaimTable, k: string, i: string)
    requires t - {k} == u - {k} && i in t && i != k
    ensures i in u && u[i] == t[i]
  {
    assert i in t - {k} && (t - {k})[i] == t[i] && (u - {k})[i] == u[i];
  }

  /** None of the operations from `j` on, up to `k`, is a successful release of `i`. */
  ghost predicate NeverFreed(states: seq<Db>, ops: seq<Op>, j: nat, k: nat, i: string)
    requires k < |states| == |ops| + 1
  {
    forall n: nat :: j <= n < k ==> !Frees(states[n], ops[n], i)
  }

  lemma {:induction false} ClaimStaysUntil(cfg: Config, states: seq<Db>, ops: seq<Op>, j: nat, k: nat, i: string)
    requires Behaviour(cfg, states, ops) && j <= k < |states| && NeverFreed(states, ops, j, k, i)
    requires i in cfg.ids && i in states[j].claims
    ensures i in states[k].claims && states[k].claims[i] == states[j].claims[i]
  {
    hide Inv, Apply, Allowed, Sane, Frees;
    if j < k {
      ClaimStaysUntil(cfg, states, ops, j, k - 1, i);
      Reachable(cfg, states, ops, k - 1);
      SameConfig(cfg, states, ops, k - 1);
      assert StepAt(states, ops, k - 1) && !Frees(states[k-1], ops[k-1], i);
      ClaimStays(states[k-1], ops[k-1], i);
    }
  }

  lemma RowHeld(db: Db, i: string)
    requires Inv(db) && i in db.cfg.ids && i in db.claims
    ensures Held(db, i, db.claims[i].claimId, db.claims[i].ownerId)
  {
    hide Inv, ActiveClaim;
    ClaimFacts(db, i);
  }

  /** The bracket's claim of `i` by `owner` succeeds. */
  predicate Brackets(db: Db, b: Bracket, i: string, owner: string) {
    b.owner == StrArg(owner) && ClaimIntent(db, i, b.owner, b.claimId, b.claim).1.success
  }

  /** The operation takes a claim of `i` for `owner` and leaves it standing: a successful claim, or a tracked
      dispatch whose release failed. */
  predicate Takes(db: Db, op: Op, i: string, claim: string, owner: string) {
    match op
    case Claim(k, x, c, a) => k == i && x == StrArg(owner) && c == claim && ClaimIntent(db, i, x, c, a).1.success
    case DispatchTracked(j, b) =>
      j.intentId == i && b.claimId == claim && Brackets(db, b, i, owner) && i in Apply(db, op).claims
    case DispatchObservedTracked(j, p, v, b) =>
      j.intentId == i && b.claimId == claim && Brackets(db, b, i, owner) && i in Apply(db, op).claims
    case _ => false
  }

  lemma TakenRow(db: Db, op: Op, i: string, claim: string, owner: string)
    requires Takes(db, op, i, claim, owner)
    ensures var after := Apply(db, op); i in after.claims && after.claims[i].ownerId == owner && after.claims[i].claimId == claim
  {
    hide ClaimIntent, ActiveClaim, DispatchAndTrack, DispatchWithProvenanceAndTrack;
    match op
    case Claim(k, x, c, a) => ClaimEffect(db, i, x, c, a);
    case DispatchTracked(j, b) => TrackedEffect(db, j, b);
    case DispatchObservedTracked(j, p, v, b) => ObservedTrackedEffect(db, j, p, v, b);
  }

  lemma TakenId(db: Db, op: Op, i: string, claim: string, owner: string)
    requires Takes(db, op, i, claim, owner) && Allowed(db, op)
    ensures i in db.cfg.ids
  {
    hide ClaimIntent, Apply, Usable, Schedule, QuietValue, AllowedObservations, AllowedBracket;
  }

  /** A tracked dispatch leaves its claim standing if and only if its release could not be recorded. */
  lemma TrackedClaimStands(db: Db, j: Job, b: Bracket)
    requires Inv(db) && Allowed(db, DispatchTracked(j, b)) && ClaimIntent(db, j.intentId, b.owner, b.claimId, b.claim).1.success
    ensures j.intentId in DispatchAndTrack(db, j, b).0.claims <==> !b.release.ok
  {
    hide Inv, Usable, Schedule, Took, QuietValue, ClaimIntent, DispatchOnce, DispatchPlan, Released, ActiveClaim,
      ReleaseEvent, RejectRelease, Emit;
    var claimed := ClaimIntent(db, j.intentId, b.owner, b.claimId, b.claim).0;
    First(db.events, b.claim, DispatchPlan(j, [b.release]));
    ClaimEffect(db, j.intentId, b.owner, b.claimId, b.claim);
    ClaimIntentKeeps(db, j.intentId, b.owner, b.claimId, b.claim);
    ClaimFrame(db, j.intentId, b.owner, b.claimId, b.claim);
    Then(db.events, claimed.events, b.claim, DispatchPlan(j, [b.release]));
    AllowedAfterClaim(db, claimed, j);
    DispatchKeeps(claimed, j, [b.release]);
    DispatchKept(claimed, j);
    ClaimFacts(DispatchOnce(claimed, j).0, j.intentId);
    ClaimUsable(db, j.intentId, b.owner, b.claimId, b.claim);
  }

  lemma ClaimUsable(db: Db, i: string, owner: Arg, claim: string, a: Attempt)
    requires ClaimIntent(db, i, owner, claim, a).1.success
    ensures UsableName(owner)
  {
    hide Emit, ActiveClaim, Inbox.StatusQuery;
  }

  /** From a claim that was taken and left standing until a successful release, in every state of every behaviour, no other
      claim on the intent succeeds and no release by another owner does. */
  lemma ClaimExclusion(
    cfg: Config, states: seq<Db>, ops: seq<Op>, j: nat, k: nat, i: string, claim: string, owner: string,
    other: Arg, c: string, a: Attempt)
    requires Behaviour(cfg, states, ops) && j < k < |states| && Takes(states[j], ops[j], i, claim, owner)
    requires NeverFreed(states, ops, j + 1, k, i)
    ensures Held(states[k], i, claim, owner)
    ensures !ClaimIntent(states[k], i, other, c, a).1.success
    ensures other != StrArg(owner) ==> !ReleaseClaim(states[k], i, other, a).1.success
  {
    hide Inv, Apply, Allowed, Sane, Held, Takes, NeverFreed, ClaimIntent, ReleaseClaim;
    assert StepAt(states, ops, j);
    SameConfig(cfg, states, ops, j);
    SameConfig(cfg, states, ops, k);
    TakenId(states[j], ops[j], i, claim, owner);
    TakenRow(states[j], ops[j], i, claim, owner);
    ClaimStaysUntil(cfg, states, ops, j + 1, k, i);
    Reachable(cfg, states, ops, k);
    RowHeld(states[k], i);
    HeldExcludes(states[k], i, claim, owner, other, c, a);
  }

  // ---------------------------------------------------------------- queries, sessions, files, names

  /** In every reachable state and for every event, looking up an id in use under one of the three keys finds
      the event exactly when its payload mentions the id there, and payloads mention ids in use only. */
  lemma LookupsExact(cfg: Config, states: seq<Db>, ops: seq<Op>, k: nat, n: nat, key: string, id: string)
    requires Behaviour(cfg, states, ops) && k < |states| && n < |states[k].events| && IsIdKey(key)
    ensures var e := states[k].events[n];
      && (id in cfg.ids ==> (Matches(Query(key, id), e.payload.text) <==> Mentioned(e, key, id)))
      && (Mentioned(e, key, id) ==> id in cfg.ids)
  {
    hide Behaviour, Matches, Query, Mentioned, Good;
    Reachable(cfg, states, ops, k);
    SameConfig(cfg, states, ops, k);
    assert Holds(LegalHistory, states[k]);
    GoodLegible(cfg, states[k].events, n);
    if id in cfg.ids { assert Refers(states[k].events[n], key, id) <==> Mentioned(states[k].events[n], key, id); }
  }

  /** In every reachable state the two queries that read the ledger give what the live tables hold. */
  lemma QueriesReadTables(cfg: Config, states: seq<Db>, ops: seq<Op>, k: nat, i: string, r: string)
    requires Behaviour(cfg, states, ops) && k < |states| && i in cfg.ids && r in cfg.ids && r != ""
    ensures var db := states[k];
      && Inbox.StatusQuery(db.events, i) == (if i in db.intents then Some(db.intents[i].status) else None)
      && Lifecycle.StateQuery(db.events, r) == (if r in db.runs then Some(db.runs[r].state) else None)
  {
    hide Inv, Behaviour;
    Reachable(cfg, states, ops, k);
    SameConfig(cfg, states, ops, k);
    IntentFacts(states[k], i);
    RunFacts(states[k], r);
  }

  /** In every reachable state each session's members are numbered 1..n, each intent once, and n is
      the stored count; live rows, rebuilt rows and expected rows are the same. */
  lemma SessionOrder(cfg: Config, states: seq<Db>, ops: seq<Op>, k: nat)
    requires Behaviour(cfg, states, ops) && k < |states|
    ensures var db := states[k];
      && Sessions.Ordered(BookOf(db))
      && BookOf(db) == Sessions.Books(db.events) == Sessions.ExpectedBook(db.events)
  {
    hide Behaviour, Good;
    var db := states[k];
    Reachable(cfg, states, ops, k);
    SessionFacts(db, "", "");
    assert Holds(LegalHistory, db);
    GoodRest(db.cfg, db.events);
    Sessions.LegalNotStale(db.events);
  }

  /** In every reachable state no two file events share intent and path, and every file event's file
      is there with the recorded size and digest. */
  lemma WriteOnceEvidence(cfg: Config, states: seq<Db>, ops: seq<Op>, k: nat, m: nat, n: nat)
    requires Behaviour(cfg, states, ops) && k < |states| && m < n < |states[k].events|
    requires states[k].events[m].eventType == Workspace.WRITTEN && states[k].events[n].eventType == Workspace.WRITTEN
    ensures var db := states[k];
      var x, y := Workspace.Inserted(db.events[m]), Workspace.Inserted(db.events[n]);
      && x.Some? && y.Some? && (x.value.row.intentId != y.value.row.intentId || x.value.row.path != y.value.row.path)
      && Workspace.Backed(db.cfg.digest, db.files, x.value.row) && Workspace.Backed(db.cfg.digest, db.files, y.value.row)
  {
    hide Behaviour, Good, Workspace.Inserted, Workspace.Backed, Workspace.LegalFiles, Workspace.Artifacts;
    var db := states[k];
    Reachable(cfg, states, ops, k);
    assert Holds(LegalHistory, db);
    GoodRest(db.cfg, db.events);
    Workspace.WriteOnce(db.events, m, n);
    Workspace.RowRecorded(db.events, m);
    Workspace.RowRecorded(db.events, n);
    ArtifactsSynced(db);
  }

  /** At every point, over any number of restarts, the names in memory have been registered, and the
      table holds each registered name with its first registration. */
  lemma RegistryAcrossRestarts(cfg: Config, states: seq<Db>, ops: seq<Op>, k: nat, name: string)
    requires Behaviour(cfg, states, ops) && k < |states|
    ensures var db := states[k];
      && (name in db.registry ==> Registry.Times(db.events, name) > 0)
      && (name in db.workers <==> Registry.Times(db.events, name) > 0)
      && (name in db.workers ==> Registry.FirstRegistration(db.events, name, db.workers[name]))
  {
    hide Behaviour, Registry.FirstRegistration;
    var db := states[k];
    Reachable(cfg, states, ops, k);
    WorkersSynced(db);
    assert Holds(KnownNames, db);
    Registry.RegisteredSometime(db.events, name);
    if name in db.workers { Registry.RowIsFirst(db.events, name); }
  }

  /** In every reachable state the receipt of an intent is the auditor's group for it. */
  lemma ReceiptsAgree(cfg: Config, states: seq<Db>, ops: seq<Op>, k: nat, i: string)
    requires Behaviour(cfg, states, ops) && k < |states| && i in cfg.ids && i != ""
    ensures var es := states[k].events;
      Receipts.Receipt(Receipts.RunsOf(es, i), i, es) == Receipts.Group(Receipts.Bridge(es), i, es)
  {
    hide Behaviour, Good, Receipts.LegalReceipts, Receipts.ExactFor;
    var db := states[k];
    Reachable(cfg, states, ops, k);
    assert Holds(LegalHistory, db);
    GoodRest(db.cfg, db.events);
    SameConfig(cfg, states, ops, k);
    GoodExactFor(db.cfg, db.events, i);
    Receipts.ReceiptsAgree(db.events, i);
  }
}
