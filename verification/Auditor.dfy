/** The auditor's structural checks, `audit`, and why every reachable state passes it. */
module Auditor {
  import opened Strings
  import opened Json
  import opened Ledger
  import opened State
  import opened Errors
  import opened Invariant
  import Inbox
  import Claims
  import Lifecycle
  import Registry
  import Sessions
  import Workspace
  import Receipts

  // ---------------------------------------------------------------- structure

  /** REQUIRED_EVENT_FIELDS with the values of one event. */
  function Fields(e: Event): seq<(string, string)> {
    [("id", e.id), ("parent_event_hash", e.parentHash), ("event_type", e.eventType), ("worker_id", e.workerId),
     ("payload_json", e.payload.text), ("event_hash", e.eventHash), ("created_at", e.createdAt)]
  }

  function MissingFields(id: string, fs: seq<(string, string)>): ErrorList {
    if fs == [] then []
    else
      var (name, value) := fs[|fs|-1];
      MissingFields(id, fs[..|fs|-1]) + When(value == "", "MISSING_REQUIRED_FIELD", id + ":" + name)
  }

  function FieldErrors(es: History): ErrorList {
    if es == [] then []
    else FieldErrors(es[..|es|-1]) + MissingFields(es[|es|-1].id, Fields(es[|es|-1]))
  }

  /** `check_required_fields`. */
  method CheckRequiredFields(es: History) returns (errors: ErrorList)
    ensures errors == FieldErrors(es)
  {
    errors := [];
    for k := 0 to |es|
      invariant errors == FieldErrors(es[..k])
    {
      Upto(es, k);
      var more := CheckFields(es[k].id, Fields(es[k]));
      errors := errors + more;
    }
    assert es[..|es|] == es;
  }

  method CheckFields(id: string, fs: seq<(string, string)>) returns (errors: ErrorList)
    ensures errors == MissingFields(id, fs)
  {
    errors := [];
    for n := 0 to |fs|
      invariant errors == MissingFields(id, fs[..n])
    {
      assert fs[..n+1][..n] == fs[..n];
      if fs[n].1 == "" { errors := errors + [AuditError("MISSING_REQUIRED_FIELD", id + ":" + fs[n].0)]; }
    }
    assert fs[..|fs|] == fs;
  }

  lemma {:induction false} NothingMissing(id: string, fs: seq<(string, string)>)
    ensures MissingFields(id, fs) == [] <==> forall n :: 0 <= n < |fs| ==> fs[n].1 != ""
  {
    if fs != [] {
      var front := fs[..|fs|-1];
      NothingMissing(id, front);
      assert forall n :: 0 <= n < |front| ==> front[n] == fs[n];
      assert MissingFields(id, fs) == [] <==> MissingFields(id, front) == [] && fs[|fs|-1].1 != "";
    }
  }

  /** Every column of every event is filled. */
  ghost predicate Filled(e: Event) {
    e.id != "" && e.parentHash != "" && e.eventType != "" && e.workerId != "" && e.payload.text != ""
    && e.eventHash != "" && e.createdAt != ""
  }

  lemma FilledExact(e: Event)
    ensures MissingFields(e.id, Fields(e)) == [] <==> Filled(e)
  {
    NothingMissing(e.id, Fields(e));
    hide MissingFields;
    var fs := Fields(e);
    assert fs[0].1 == e.id && fs[1].1 == e.parentHash && fs[2].1 == e.eventType && fs[3].1 == e.workerId;
    assert fs[4].1 == e.payload.text && fs[5].1 == e.eventHash && fs[6].1 == e.createdAt;
  }

  /** The check is exact: no error if and only if every required column of every event is filled. */
  lemma {:induction false} FieldCheckExact(es: History)
    ensures FieldErrors(es) == [] <==> forall k :: 0 <= k < |es| ==> Filled(es[k])
  {
    hide Filled, MissingFields, Fields;
    if es != [] {
      FieldCheckExact(es[..|es|-1]);
      FilledExact(es[|es|-1]);
    }
  }

  /** The column of the event is a required one and is empty. */
  predicate Lacks(e: Event, column: string) {
    || (column == "id" && e.id == "") || (column == "parent_event_hash" && e.parentHash == "")
    || (column == "event_type" && e.eventType == "") || (column == "worker_id" && e.workerId == "")
    || (column == "payload_json" && e.payload.text == "") || (column == "event_hash" && e.eventHash == "")
    || (column == "created_at" && e.createdAt == "")
  }

  lemma {:induction false} MissingFinds(id: string, fs: seq<(string, string)>, x: AuditError)
    ensures x in MissingFields(id, fs) <==>
      exists n :: 0 <= n < |fs| && fs[n].1 == "" && x == AuditError("MISSING_REQUIRED_FIELD", id + ":" + fs[n].0)
  {
    if fs != [] {
      var front := fs[..|fs|-1];
      MissingFinds(id, front, x);
      assert forall n :: 0 <= n < |front| ==> front[n] == fs[n];
    }
  }

  lemma LacksIs(e: Event, column: string)
    ensures Lacks(e, column) <==> exists n :: 0 <= n < 7 && Fields(e)[n] == (column, "")
  {
    var fs := Fields(e);
    assert fs[0] == ("id", e.id) && fs[1] == ("parent_event_hash", e.parentHash) && fs[2] == ("event_type", e.eventType);
    assert fs[3] == ("worker_id", e.workerId) && fs[4] == ("payload_json", e.payload.text);
    assert fs[5] == ("event_hash", e.eventHash) && fs[6] == ("created_at", e.createdAt);
  }

  lemma ColumnFinds(e: Event, x: AuditError)
    ensures x in MissingFields(e.id, Fields(e)) <==>
      exists column :: Lacks(e, column) && x == AuditError("MISSING_REQUIRED_FIELD", e.id + ":" + column)
  {
    MissingFinds(e.id, Fields(e), x);
    forall column ensures Lacks(e, column) <==> exists n :: 0 <= n < 7 && Fields(e)[n] == (column, "") { LacksIs(e, column); }
    hide MissingFields, Lacks, Fields;
    assert |Fields(e)| == 7 by { SevenFields(e); }
    if n :| 0 <= n < 7 && Fields(e)[n].1 == "" && x == AuditError("MISSING_REQUIRED_FIELD", e.id + ":" + Fields(e)[n].0) {
      assert Fields(e)[n] == (Fields(e)[n].0, "");
    }
  }

  lemma SevenFields(e: Event)
    ensures |Fields(e)| == 7
  {
  }

  /** The check reports exactly the empty columns. */
  lemma {:induction false} FieldFinds(es: History, x: AuditError)
    ensures x in FieldErrors(es) <==> exists n: nat, column ::
      n < |es| && Lacks(es[n], column) && x == AuditError("MISSING_REQUIRED_FIELD", es[n].id + ":" + column)
  {
    hide Lacks, MissingFields, Fields;
    if es != [] {
      var front, m := es[..|es|-1], |es| - 1;
      FieldFinds(front, x);
      ColumnFinds(es[m], x);
      forall n: nat | n < m ensures front[n] == es[n] { }
    }
  }

  function Ids(es: History): set<string> {
    if es == [] then {} else Ids(es[..|es|-1]) + {es[|es|-1].id}
  }

  function DuplicateErrors(es: History): ErrorList {
    if es == [] then []
    else
      DuplicateErrors(es[..|es|-1]) +
      When(es[|es|-1].id in Ids(es[..|es|-1]), "DUPLICATE_EVENT_ID", es[|es|-1].id)
  }

  /** `check_duplicate_event_ids`. */
  method CheckDuplicateEventIds(es: History) returns (errors: ErrorList)
    ensures errors == DuplicateErrors(es)
  {
    errors := [];
    var seen: set<string> := {};
    for k := 0 to |es|
      invariant errors == DuplicateErrors(es[..k]) && seen == Ids(es[..k])
    {
      Upto(es, k);
      if es[k].id in seen { errors := errors + [AuditError("DUPLICATE_EVENT_ID", es[k].id)]; }
      seen := seen + {es[k].id};
    }
    assert es[..|es|] == es;
  }

  lemma {:induction false} IdsExact(es: History, id: string)
    ensures id in Ids(es) <==> IdOf(es, id)
  {
    if es != [] {
      var front := es[..|es|-1];
      IdsExact(front, id);
      if IdOf(front, id) { IdStays(front, es[|es|-1], id); Unsnoc(es); }
    }
  }

  /** The check is exact: no error if and only if all ids differ. */
  lemma {:induction false} DuplicateCheckExact(es: History)
    ensures DuplicateErrors(es) == [] <==> DistinctIds(es)
  {
    if es != [] {
      var front, id := es[..|es|-1], es[|es|-1].id;
      DuplicateCheckExact(front);
      IdsExact(front, id);
      DistinctSnoc(es);
      hide DistinctIds, IdOf;
    }
  }

  /** The check reports exactly the ids used again. */
  lemma {:induction false} DuplicateFinds(es: History, x: AuditError)
    ensures x in DuplicateErrors(es) <==>
      exists m: nat, n: nat :: m < n < |es| && es[m].id == es[n].id && x == AuditError("DUPLICATE_EVENT_ID", es[n].id)
  {
    if es != [] {
      var front, k := es[..|es|-1], |es| - 1;
      DuplicateFinds(front, x);
      IdsExact(front, es[k].id);
      forall n: nat | n < k ensures front[n] == es[n] { }
    }
  }

  lemma DistinctSnoc(es: History)
    requires es != []
    ensures DistinctIds(es) <==> DistinctIds(es[..|es|-1]) && !IdOf(es[..|es|-1], es[|es|-1].id)
  {
    var front := es[..|es|-1];
    assert forall k :: 0 <= k < |front| ==> front[k] == es[k];
    if DistinctIds(front) && !IdOf(front, es[|es|-1].id) {
      forall j, k | 0 <= j < k < |es| ensures es[j].id != es[k].id {
        assert front[j] == es[j];
        if k < |front| { assert front[k] == es[k]; }
      }
    }
    if DistinctIds(es) {
      forall j, k | 0 <= j < k < |front| ensures front[j].id != front[k].id { assert front[j] == es[j] && front[k] == es[k]; }
    }
  }

  function OrderingErrors(es: History): ErrorList {
    if es == [] then []
    else
      var front, e := es[..|es|-1], es[|es|-1];
      OrderingErrors(front) +
      When(front != [] && Less(e.createdAt, front[|front|-1].createdAt), "EVENT_ORDERING_NOT_MONOTONIC", e.id)
  }

  /** `check_monotonic_ordering`. */
  method CheckMonotonicOrdering(es: History) returns (errors: ErrorList)
    ensures errors == OrderingErrors(es)
  {
    errors := [];
    var previous: Option<string> := None;
    for k := 0 to |es|
      invariant errors == OrderingErrors(es[..k])
      invariant previous == if k == 0 then None else Some(es[k-1].createdAt)
    {
      Upto(es, k);
      if previous.Some? && Less(es[k].createdAt, previous.value) {
        errors := errors + [AuditError("EVENT_ORDERING_NOT_MONOTONIC", es[k].id)];
      }
      previous := Some(es[k].createdAt);
    }
    assert es[..|es|] == es;
  }

  /** The check reports exactly the events earlier than the one before them. */
  lemma {:induction false} OrderingFinds(es: History, x: AuditError)
    ensures x in OrderingErrors(es) <==> exists n: nat ::
      0 < n < |es| && Less(es[n].createdAt, es[n-1].createdAt) && x == AuditError("EVENT_ORDERING_NOT_MONOTONIC", es[n].id)
  {
    if es != [] {
      var front, k := es[..|es|-1], |es| - 1;
      OrderingFinds(front, x);
      forall n: nat | n < k ensures front[n] == es[n] { }
      if k > 0 { assert front[k-1] == es[k-1]; }
    }
  }

  ghost predicate Monotonic(es: History) {
    forall j, k :: 0 <= j < k < |es| ==> !Less(es[k].createdAt, es[j].createdAt)
  }

  /** The check is exact, and comparing neighbours is enough: no error if and only if no event is
      earlier than any before it. */
  lemma {:induction false} OrderingCheckExact(es: History)
    ensures OrderingErrors(es) == [] <==> Monotonic(es)
  {
    if es != [] {
      OrderingCheckExact(es[..|es|-1]);
      MonotonicSnoc(es);
      hide Monotonic;
    }
  }

  lemma MonotonicSnoc(es: History)
    requires es != []
    ensures var front, e := es[..|es|-1], es[|es|-1];
      Monotonic(es) <==> Monotonic(front) && (front != [] ==> !Less(e.createdAt, front[|front|-1].createdAt))
  {
    var front, e := es[..|es|-1], es[|es|-1];
    assert forall k :: 0 <= k < |front| ==> front[k] == es[k];
    if Monotonic(front) && (front != [] ==> !Less(e.createdAt, front[|front|-1].createdAt)) {
      forall j, k | 0 <= j < k < |es| ensures !Less(es[k].createdAt, es[j].createdAt) {
        if k < |front| {
          assert front[j] == es[j] && front[k] == es[k];
        } else {
          NotLessTransitive(es[j].createdAt, front[|front|-1].createdAt, e.createdAt, j < |front| - 1, front, j);
        }
      }
    }
    if Monotonic(es) {
      forall j, k | 0 <= j < k < |front| ensures !Less(front[k].createdAt, front[j].createdAt) {
        assert front[j] == es[j] && front[k] == es[k];
      }
    }
  }

  lemma NotLessTransitive(a: string, b: string, c: string, strict: bool, front: History, j: nat)
    requires j < |front| && Monotonic(front) && a == front[j].createdAt && b == front[|front|-1].createdAt
    requires strict == (j < |front| - 1) && !Less(c, b)
    ensures !Less(c, a)
  {
    if strict {
      assert !Less(b, a);
      Trichotomy(a, b);
      Trichotomy(b, c);
      if Less(c, a) && a != b {
        Transitive(c, a, b);
      }
    }
  }

  // ---------------------------------------------------------------- audit

  datatype AuditResult = AuditResult(success: bool, chainValid: bool, projectionsValid: bool, errors: ErrorList)

  /** A clean history, registrations aside: no column empty, ids distinct, times in order; every run event names its
      run and every run takes the path of the table; artifact and file events carry what they should; every intent
      takes a path of its table, is claimed once and concluded for the worker it was claimed for; claims exclude each
      other and are released as they were made; members are intents of opened sessions, once each. */
  ghost predicate HistoryClean(es: History) {
    && (forall n: nat, column :: n < |es| ==> !Lacks(es[n], column)) && DistinctIds(es) && Monotonic(es)
    && (forall n: nat :: n < |es| ==> !Lifecycle.Nameless(es[n])) && Lifecycle.OnPath(es)
    && (forall n: nat :: !Workspace.Malformed(es, n))
    && Inbox.OnPath(es) && (forall n: nat, i :: !Inbox.ClaimsAgain(es, n, i))
    && (forall i, m: nat, n: nat :: !Inbox.OtherWorker(es, i, m, n))
    && (forall i, m: nat, n: nat :: !Claims.Objectionable(es, i, m, n))
    && (forall n: nat, x :: !Sessions.Wrong(Inbox.KnownIntents(es), es, n, x))
  }

  /** The run, inbox, intent, worker and claim tables match history: every expected row is there, the first two and
      the last two hold no other, and a worker column may hold anything while history names no worker. */
  ghost predicate TablesClean(db: Db) {
    var es := db.events;
    && (forall r :: r in Lifecycle.ExpectedRuns(es) ==> r in db.runs && db.runs[r] == Lifecycle.ExpectedRuns(es)[r])
    && (forall i :: i in Inbox.SubmissionStatus(es) ==> i in db.inbox && db.inbox[i].status == Inbox.SubmissionStatus(es)[i])
    && (forall i :: i in Inbox.Intents(es) ==> i in db.intents && Inbox.SameRow(db.intents[i], Inbox.Intents(es)[i]))
    && db.workers == Registry.Workers(es) && db.claims == Claims.Claims(es)
  }

  ghost predicate ReceiptsClean(receipts: ReceiptTable, es: History) {
    forall i :: i in receipts ==> Receipts.ExpectedRow(es, i) == Some(receipts[i])
  }

  /** The artifact and session tables match history. */
  ghost predicate MoreTablesClean(db: Db) {
    db.artifacts == Workspace.Expected(db.events) && Sessions.Book(db.sessions, db.members) == Sessions.ExpectedBook(db.events)
  }

  /** Every artifact row is backed by its file. */
  ghost predicate FilesClean(db: Db) {
    var t := Workspace.Expected(db.events);
    forall a :: a in t ==> Workspace.Backed(db.cfg.digest, db.files, t[a])
  }

  /** A ledger, its tables and its files are as they should be. */
  ghost predicate Clean(db: Db, receipts: ReceiptTable, workspace: bool) {
    && ValidChain(db.cfg.hash, db.events) && HistoryClean(db.events) && Registry.RegisteredOnce(db.events)
    && TablesClean(db) && ReceiptsClean(receipts, db.events) && MoreTablesClean(db) && (workspace ==> FilesClean(db))
  }

  // ---------------------------------------------------------------- the checks report nothing

  /** The history checks, registrations aside, report nothing. */
  ghost predicate HistoryQuiet(es: History) {
    && FieldErrors(es) == [] && DuplicateErrors(es) == [] && OrderingErrors(es) == []
    && Lifecycle.PresenceErrors(es) == [] && Lifecycle.TransitionErrors(es) == []
    && Workspace.RunArtifactErrors(Workspace.CreatedRuns(es), es) + Workspace.FileSchemaErrors(es) == []
    && Inbox.TransitionErrors(es) == [] && Inbox.DuplicateClaimErrors(es) == [] && Inbox.WorkerErrors(es) == []
    && Claims.CleanClaims(es) && Sessions.HistoryErrors(Inbox.KnownIntents(es), es) == []
  }


  ghost predicate TablesQuiet(db: Db) {
    var es := db.events;
    && Collect(SortedKeys(Lifecycle.ExpectedRuns(es).Keys), Lifecycle.RunRowErrors(db.runs, Lifecycle.ExpectedRuns(es))) == []
    && Collect(SortedKeys(Inbox.SubmissionStatus(es).Keys), Inbox.InboxErrors(db.inbox, Inbox.SubmissionStatus(es))) +
       Collect(SortedKeys(Inbox.Intents(es).Keys), Inbox.IntentRowErrors(db.intents, Inbox.Intents(es))) == []
    && Collect(SortedKeys(Registry.Workers(es).Keys), Registry.WorkerRowErrors(db.workers, Registry.Workers(es))) +
       Collect(SortedKeys(db.workers.Keys - Registry.Workers(es).Keys), Unexpected("WORKER_PROJECTION_UNEXPECTED_ENTRY")) == []
    && Collect(SortedKeys(Claims.Claims(es).Keys), Claims.ClaimRowErrors(db.claims, Claims.Claims(es))) +
       Collect(SortedKeys(db.claims.Keys - Claims.Claims(es).Keys), Unexpected("CLAIM_PROJECTION_UNEXPECTED_ENTRY")) == []
  }

  ghost predicate ReceiptsQuiet(receipts: ReceiptTable, es: History) {
    Collect(SortedKeys(receipts.Keys), Receipts.RowErrors(receipts, es)) == []
  }

  ghost predicate MoreQuiet(db: Db) {
    && Workspace.ProjectionErrors(db.artifacts, Workspace.Expected(db.events)) == []
    && Sessions.ProjectionErrors(Sessions.Book(db.sessions, db.members), Sessions.ExpectedBook(db.events)) == []
  }

  ghost predicate FilesQuiet(db: Db) {
    Collect(SortedKeys(Workspace.Expected(db.events).Keys),
            Workspace.FileErrors(db.cfg.digest, db.files, Workspace.Expected(db.events))) == []
  }

  /** They report nothing if and only if the history is clean. */
  lemma HistoryQuietIs(es: History)
    ensures HistoryQuiet(es) <==> HistoryClean(es)
  {
    FieldsQuiet(es);
    hide FieldErrors, DuplicateErrors, OrderingErrors, DistinctIds, Monotonic, Lacks, Lifecycle.PresenceErrors,
      Lifecycle.TransitionErrors,
      Lifecycle.Nameless, Lifecycle.OnPath, Workspace.RunArtifactErrors, Workspace.FileSchemaErrors, Workspace.CreatedRuns, Workspace.Malformed,
      Inbox.TransitionErrors, Inbox.OnPath, Inbox.DuplicateClaimErrors, Inbox.ClaimsAgain, Inbox.WorkerErrors, Inbox.OtherWorker,
      Claims.CleanClaims, Claims.Objectionable, Sessions.HistoryErrors, Sessions.Wrong, Inbox.KnownIntents;
    DuplicateCheckExact(es);
    OrderingCheckExact(es);
    Lifecycle.PresenceCheckExact(es);
    Lifecycle.TransitionCheckExact(es);
    Workspace.SchemaCheckExact(es);
    Inbox.TransitionCheckExact(es);
    Inbox.DuplicateClaimExact(es);
    Inbox.WorkersQuiet(es);
    Claims.CleanIsExclusive(es);
    Sessions.HistoryCheckExact(Inbox.KnownIntents(es), es);
  }

  lemma FieldsQuiet(es: History)
    ensures FieldErrors(es) == [] <==> forall n: nat, column :: n < |es| ==> !Lacks(es[n], column)
  {
    hide FieldErrors, Lacks;
    if FieldErrors(es) != [] { FieldFinds(es, FieldErrors(es)[0]); }
    if n: nat, column :| n < |es| && Lacks(es[n], column) {
      FieldFinds(es, AuditError("MISSING_REQUIRED_FIELD", es[n].id + ":" + column));
    }
  }

  lemma TablesQuietIs(db: Db)
    ensures TablesQuiet(db) <==> TablesClean(db)
  {
    var es := db.events;
    hide Collect, Lifecycle.RunRowErrors, Inbox.InboxErrors, Inbox.IntentRowErrors, Registry.WorkerRowErrors,
      Claims.ClaimRowErrors, Unexpected,
      Lifecycle.ExpectedRuns, Inbox.SubmissionStatus, Inbox.Intents, Inbox.SameRow, Registry.Workers, Claims.Claims;
    Lifecycle.RunErrorsEmpty(db.runs, Lifecycle.ExpectedRuns(es));
    Inbox.InboxErrorsEmpty(db.inbox, Inbox.SubmissionStatus(es));
    Inbox.IntentErrorsEmpty(db.intents, Inbox.Intents(es));
    Registry.WorkerErrorsEmpty(db.workers, Registry.Workers(es));
    Claims.ClaimErrorsEmpty(db.claims, Claims.Claims(es));
  }

  lemma ReceiptsQuietIs(receipts: ReceiptTable, es: History)
    ensures ReceiptsQuiet(receipts, es) <==> ReceiptsClean(receipts, es)
  {
    hide Collect, Receipts.RowErrors, Receipts.ExpectedRow;
    Receipts.ReceiptErrorsEmpty(receipts, es);
  }

  lemma MoreQuietIs(db: Db)
    ensures MoreQuiet(db) <==> MoreTablesClean(db)
  {
    hide Workspace.ProjectionErrors, Sessions.ProjectionErrors, Workspace.Expected, Sessions.ExpectedBook;
    Workspace.ProjectionErrorsEmpty(db.artifacts, Workspace.Expected(db.events));
    Sessions.SessionErrorsEmpty(Sessions.Book(db.sessions, db.members), Sessions.ExpectedBook(db.events));
  }

  lemma FilesQuietIs(db: Db)
    ensures FilesQuiet(db) <==> FilesClean(db)
  {
    hide Collect, Workspace.FileErrors, Workspace.Expected, Workspace.Backed;
    Workspace.FileErrorsEmpty(db.cfg.digest, db.files, Workspace.Expected(db.events));
  }

  /** What the chain check reports: the first offending event, if any. */
  function ChainErrors(hash: Hasher, es: History): ErrorList {
    if es == [] then []
    else
      var before, e := ChainErrors(hash, es[..|es|-1]), es[|es|-1];
      if before != [] then before
      else if e.parentHash != Head(es[..|es|-1]) then [AuditError("MISSING_PREVIOUS_HASH", e.id)]
      else When(e.eventHash != hash(Hashed(e)), "BROKEN_HASH_CHAIN", e.id)
  }

  lemma {:induction false} ChainErrorsEmpty(hash: Hasher, es: History)
    ensures ChainErrors(hash, es) == [] <==> ValidChain(hash, es)
  {
    if es != [] { ChainErrorsEmpty(hash, es[..|es|-1]); }
  }

  /** The first error stays the one reported. */
  lemma {:induction false} FirstBreakStays(hash: Hasher, es: History, n: nat)
    requires n <= |es| && ChainErrors(hash, es[..n]) != []
    ensures ChainErrors(hash, es) == ChainErrors(hash, es[..n])
  {
    if n < |es| {
      assert es[..|es|-1][..n] == es[..n];
      FirstBreakStays(hash, es[..|es|-1], n);
    } else {
      assert es[..n] == es;
    }
  }

  method CheckChain(db: Database) returns (valid: bool, errors: ErrorList)
    ensures valid <==> ValidChain(db.cfg.hash, db.events)
    ensures errors == ChainErrors(db.cfg.hash, db.events)
  {
    var hash, es := db.cfg.hash, db.events;
    var r := ValidateChain(hash, es);
    ChainErrorsEmpty(hash, es);
    match r {
      case Valid(_) => valid, errors := true, [];
      case ChainBroken(n, id) =>
        FirstBreak(hash, es, n);
        valid, errors := false, [AuditError("MISSING_PREVIOUS_HASH", id)];
      case HashMismatch(n, id) =>
        FirstBreak(hash, es, n);
        valid, errors := false, [AuditError("BROKEN_HASH_CHAIN", id)];
    }
  }

  /** The error for an event that does not continue the chain. */
  function BreakError(front: History, e: Event): AuditError {
    AuditError(if e.parentHash != Head(front) then "MISSING_PREVIOUS_HASH" else "BROKEN_HASH_CHAIN", e.id)
  }

  lemma BreakNext(hash: Hasher, front: History, e: Event)
    requires ChainErrors(hash, front) == [] && (e.parentHash != Head(front) || e.eventHash != hash(Hashed(e)))
    ensures ChainErrors(hash, front + [e]) == [BreakError(front, e)]
  {
    Snoc(front, e);
    hide Hashed, Head;
  }

  lemma FirstBreak(hash: Hasher, es: History, n: nat)
    requires n < |es| && ValidChain(hash, es[..n]) && (es[n].parentHash != Head(es[..n]) || es[n].eventHash != hash(Hashed(es[n])))
    ensures ChainErrors(hash, es) == [BreakError(es[..n], es[n])]
  {
    hide *;
    ChainErrorsEmpty(hash, es[..n]);
    Upto(es, n);
    BreakNext(hash, es[..n], es[n]);
    FirstBreakStays(hash, es, n + 1);
  }

  /** Event `n` is the first that does not continue the chain, and why. */
  ghost predicate Breaks(hash: Hasher, es: History, n: nat, code: string) {
    && n < |es| && ValidChain(hash, es[..n])
    && if es[n].parentHash != Head(es[..n]) then code == "MISSING_PREVIOUS_HASH"
       else code == "BROKEN_HASH_CHAIN" && es[n].eventHash != hash(Hashed(es[n]))
  }

  /** The check reports exactly that event, alone. */
  lemma {:induction false} ChainFinds(hash: Hasher, es: History, n: nat, code: string)
    requires Breaks(hash, es, n, code)
    ensures ChainErrors(hash, es) == [AuditError(code, es[n].id)]
  {
    hide Hashed, Head, ValidChain;
    FirstBreak(hash, es, n);
  }

  /** What the history checks report, in their order. */
  function HistoryReport(es: History): ErrorList {
    FieldErrors(es) + DuplicateErrors(es) + OrderingErrors(es) +
    Lifecycle.PresenceErrors(es) + Lifecycle.TransitionErrors(es) +
    (Workspace.RunArtifactErrors(Workspace.CreatedRuns(es), es) + Workspace.FileSchemaErrors(es)) +
    Inbox.TransitionErrors(es) + Inbox.DuplicateClaimErrors(es) + Inbox.WorkerErrors(es) +
    Registry.DuplicateErrors(es) + Collect(Claims.FirstNamed(es), Claims.ErrorsOf(es)) +
    Sessions.HistoryErrors(Inbox.KnownIntents(es), es)
  }

  /** The history checks in the order of the code; registrations are checked among them. */
  method CheckHistory(es: History) returns (errors: ErrorList)
    ensures errors == HistoryReport(es)
  {
    hide FieldErrors, DuplicateErrors, OrderingErrors, Lifecycle.PresenceErrors, Lifecycle.TransitionErrors, Inbox.TransitionErrors,
      Inbox.DuplicateClaimErrors, Inbox.WorkerErrors, Registry.DuplicateErrors, Sessions.HistoryErrors, Claims.FirstNamed, Collect,
      Workspace.RunArtifactErrors, Workspace.FileSchemaErrors, Workspace.CreatedRuns, Inbox.KnownIntents;
    var e1 := CheckRequiredFields(es);
    var e2 := CheckDuplicateEventIds(es);
    var e3 := CheckMonotonicOrdering(es);
    var e4 := Lifecycle.CheckRunIdPresence(es);
    var e5 := Lifecycle.CheckLifecycleTransitions(es);
    var e6 := Workspace.CheckArtifactSchema(es);
    var e7 := Inbox.CheckIntentTransitions(es);
    var e8 := Inbox.CheckDuplicateClaims(es);
    var e9 := Inbox.CheckWorkerNameConsistency(es);
    var e10 := Registry.CheckDuplicateWorkerRegistrations(es);
    var e11 := Claims.CheckClaimHistory(es);
    var e12 := Sessions.CheckSessionHistory(es);
    errors := e1 + e2 + e3 + e4 + e5 + e6 + e7 + e8 + e9 + e10 + e11 + e12;
  }

  /** They report nothing if and only if the history is clean and no name was registered twice. */
  lemma HistoryReportEmpty(es: History)
    ensures HistoryReport(es) == [] <==> HistoryClean(es) && Registry.RegisteredOnce(es)
  {
    HistoryQuietIs(es);
    Registry.DuplicateCheckExact(es);
    hide HistoryClean, Registry.RegisteredOnce;
    hide FieldErrors, DuplicateErrors, OrderingErrors, Lifecycle.PresenceErrors, Lifecycle.TransitionErrors, Inbox.TransitionErrors,
      Inbox.DuplicateClaimErrors, Inbox.WorkerErrors, Registry.DuplicateErrors, Sessions.HistoryErrors, Claims.FirstNamed, Collect,
      Workspace.RunArtifactErrors, Workspace.FileSchemaErrors, Workspace.CreatedRuns, Inbox.KnownIntents, Claims.CleanClaims;
    Claims.HistoryErrorsEmpty(es);
  }

  /** What the comparisons of the run, inbox, intent, worker and claim tables report. */
  function TableReport(db: Db): ErrorList {
    var es := db.events;
    Collect(SortedKeys(Lifecycle.ExpectedRuns(es).Keys), Lifecycle.RunRowErrors(db.runs, Lifecycle.ExpectedRuns(es))) +
    (Collect(SortedKeys(Inbox.SubmissionStatus(es).Keys), Inbox.InboxErrors(db.inbox, Inbox.SubmissionStatus(es))) +
     Collect(SortedKeys(Inbox.Intents(es).Keys), Inbox.IntentRowErrors(db.intents, Inbox.Intents(es)))) +
    (Collect(SortedKeys(Registry.Workers(es).Keys), Registry.WorkerRowErrors(db.workers, Registry.Workers(es))) +
     Collect(SortedKeys(db.workers.Keys - Registry.Workers(es).Keys), Unexpected("WORKER_PROJECTION_UNEXPECTED_ENTRY"))) +
    (Collect(SortedKeys(Claims.Claims(es).Keys), Claims.ClaimRowErrors(db.claims, Claims.Claims(es))) +
     Collect(SortedKeys(db.claims.Keys - Claims.Claims(es).Keys), Unexpected("CLAIM_PROJECTION_UNEXPECTED_ENTRY")))
  }

  method CheckTables(db: Database) returns (errors: ErrorList)
    ensures errors == TableReport(db.View())
  {
    hide Collect, Lifecycle.RunRowErrors, Inbox.InboxErrors, Inbox.IntentRowErrors, Registry.WorkerRowErrors,
      Claims.ClaimRowErrors, Unexpected,
      Lifecycle.ExpectedRuns, Inbox.SubmissionStatus, Inbox.Intents, Registry.Workers, Claims.Claims;
    var e1 := Lifecycle.CheckProjections(db.runs, db.events);
    var e2 := Inbox.CheckIntents(db.inbox, db.intents, db.events);
    var e3 := Registry.CheckWorkerProjection(db.workers, db.events);
    var e4 := Claims.CheckClaimProjection(db.claims, db.events);
    errors := e1 + e2 + e3 + e4;
  }

  lemma TableReportEmpty(db: Db)
    ensures TableReport(db) == [] <==> TablesClean(db)
  {
    TablesQuietIs(db);
    hide TablesClean, Collect, Lifecycle.RunRowErrors, Inbox.InboxErrors, Inbox.IntentRowErrors, Registry.WorkerRowErrors,
      Claims.ClaimRowErrors,
      Unexpected, Lifecycle.ExpectedRuns, Inbox.SubmissionStatus, Inbox.Intents, Registry.Workers, Claims.Claims;
  }

  lemma CleanDistinct(es: History)
    requires HistoryClean(es)
    ensures DistinctIds(es)
  {
    hide Monotonic, Lacks, Lifecycle.OnPath, Inbox.OnPath;
  }

  /** What the audit reports, in its order. */
  function AuditReport(db: Db, receipts: ReceiptTable, workspace: bool): ErrorList {
    ChainErrors(db.cfg.hash, db.events) + HistoryReport(db.events) + TableReport(db) +
    Collect(SortedKeys(receipts.Keys), Receipts.RowErrors(receipts, db.events)) +
    Workspace.ProjectionErrors(db.artifacts, Workspace.Expected(db.events)) +
    (if workspace
     then Collect(SortedKeys(Workspace.Expected(db.events).Keys),
                  Workspace.FileErrors(db.cfg.digest, db.files, Workspace.Expected(db.events)))
     else []) +
    Sessions.ProjectionErrors(Sessions.Book(db.sessions, db.members), Sessions.ExpectedBook(db.events))
  }

  lemma AuditReportEmpty(db: Db, receipts: ReceiptTable, workspace: bool)
    ensures AuditReport(db, receipts, workspace) == [] <==> Clean(db, receipts, workspace)
  {
    hide ChainErrors, ValidChain, HistoryReport, HistoryClean, TableReport, TablesClean, ReceiptsClean, MoreTablesClean,
      FilesClean, Collect,
      Receipts.RowErrors, Workspace.ProjectionErrors, Workspace.Expected, Workspace.FileErrors, Sessions.ProjectionErrors, Sessions.ExpectedBook,
      Registry.RegisteredOnce;
    ChainErrorsEmpty(db.cfg.hash, db.events);
    HistoryReportEmpty(db.events);
    TableReportEmpty(db);
    ReceiptsQuietIs(receipts, db.events);
    MoreQuietIs(db);
    FilesQuietIs(db);
  }

  /** `audit`, without the provenance and environment checks: every error in its order; it reports
      nothing exactly when the chain, the history, every table and every file are as history says. The
      receipt comparison takes the primary key for granted. */
  method Audit(db: Database, workspace: bool) returns (r: AuditResult)
    ensures DistinctIds(db.events) ==> r.errors == AuditReport(db.View(), db.receipts, workspace)
    ensures r.success <==> Clean(db.View(), db.receipts, workspace)
    ensures r.success <==> r.errors == []
    ensures r.chainValid <==> ValidChain(db.cfg.hash, db.events)
    ensures r.projectionsValid && DistinctIds(db.events) <==>
      DistinctIds(db.events) && TablesClean(db.View()) && ReceiptsClean(db.receipts, db.events) && MoreTablesClean(db.View())
  {
    hide HistoryClean, TablesClean, ReceiptsClean, MoreTablesClean, FilesClean, DistinctIds, Collect, Workspace.ProjectionErrors,
      Sessions.ProjectionErrors, Workspace.Expected, Sessions.ExpectedBook, ChainErrors, HistoryReport, TableReport,
        Registry.RegisteredOnce;
    if HistoryClean(db.events) { CleanDistinct(db.events); }
    var valid, chain := CheckChain(db);
    var history := CheckHistory(db.events);
    var tables := CheckTables(db);
    ChainErrorsEmpty(db.cfg.hash, db.events);
    HistoryReportEmpty(db.events);
    TableReportEmpty(db.View());
    ReceiptsQuietIs(db.receipts, db.events);
    MoreQuietIs(db.View());
    FilesQuietIs(db.View());
    var receipts := Receipts.CheckReceiptProjection(db.receipts, db.events);
    var artifacts := Workspace.CheckArtifactProjection(db.artifacts, db.events);
    var files: ErrorList := [];
    if workspace { files := Workspace.CheckArtifactFiles(db.cfg.digest, db.files, db.events); }
    var sessions := Sessions.CheckSessionProjection(Sessions.Book(db.sessions, db.members), db.events);
    var errors := chain + history + tables + receipts + artifacts + files + sessions;
    r := AuditResult(|errors| == 0, valid, |tables| == 0 && |receipts| == 0 && |artifacts| == 0 && |sessions| == 0, errors);
  }

  // ---------------------------------------------------------------- reachable states are clean

  lemma {:induction false} GoodColumns(cfg: Config, es: History)
    requires Good(cfg, es)
    ensures FieldErrors(es) == [] && OrderingErrors(es) == []
  {
    hide Shaped, Legal, MissingFields, Fields;
    if es != [] {
      GoodColumns(cfg, es[..|es|-1]);
      BasicFilled(cfg, es[..|es|-1], es[|es|-1]);
      FilledExact(es[|es|-1]);
    }
  }

  lemma BasicFilled(cfg: Config, es: History, e: Event)
    requires Basic(cfg, es, e)
    ensures Filled(e)
  {
    WrittenReads(e.payload.value);
    hide Written, Head;
  }

  /** A legal history passes every history check but that of registrations. */
  lemma GoodHistoryClean(cfg: Config, es: History)
    requires Good(cfg, es)
    ensures ValidChain(cfg.hash, es) && HistoryClean(es)
  {
    hide Good, FieldErrors, DuplicateErrors, OrderingErrors, Lifecycle.PresenceErrors, Lifecycle.TransitionErrors, Inbox.TransitionErrors,
      Inbox.DuplicateClaimErrors, Inbox.WorkerErrors, Claims.CleanClaims, Sessions.HistoryErrors, DistinctIds,
      Workspace.RunArtifactErrors, Workspace.FileSchemaErrors, Workspace.CreatedRuns, Inbox.KnownIntents,
      Sessions.LegalSessions, Workspace.LegalFiles, Receipts.LegalReceipts;
    GoodColumns(cfg, es);
    GoodChain(cfg, es);
    DuplicateCheckExact(es);
    GoodRuns(cfg, es);
    GoodIntents(cfg, es);
    Inbox.CleanTransitionsCleanClaims(es);
    GoodClaims(cfg, es);
    GoodRest(cfg, es);
    Workspace.LegalRebuild(es);
    Workspace.LegalSchemaClean(es, Workspace.CreatedRuns(es));
    Sessions.LegalHistoryClean(es, Inbox.KnownIntents(es));
    HistoryQuietIs(es);
    hide HistoryClean;
  }

  /** Tables that are folds of the ledger match history. */
  lemma SyncedTablesClean(db: Db)
    requires Synced(db) && Inbox.TransitionErrors(db.events) == [] && Inbox.AllIntentShaped(db.events)
    requires SubmissionsEnter(db.events)
    ensures TablesClean(db)
  {
    hide Lifecycle.Runs, Inbox.Intents, Inbox.Entries, Claims.Claims, Registry.Workers, Workspace.Artifacts, Sessions.Books, Collect,
      Lifecycle.RunRowErrors, Inbox.InboxErrors, Inbox.IntentRowErrors, Registry.WorkerRowErrors, Claims.ClaimRowErrors, Unexpected,
      Lifecycle.ExpectedRuns, Inbox.SubmissionStatus;
    Lifecycle.RebuildMatchesExpected(db.events);
    InboxClean(db);
  }

  /** Every submission event enters the inbox. */
  ghost predicate SubmissionsEnter(es: History) {
    forall k :: 0 <= k < |es| && Inbox.IsSubmission(es[k].eventType) ==> Inbox.Enters(es[k])
  }

  lemma InboxClean(db: Db)
    requires db.inbox == Inbox.Entries(db.events) && Inbox.TransitionErrors(db.events) == [] && SubmissionsEnter(db.events)
    ensures forall i :: i in Inbox.SubmissionStatus(db.events) ==>
      i in db.inbox && db.inbox[i].status == Inbox.SubmissionStatus(db.events)[i]
  {
    hide Inbox.Entries, Inbox.SubmissionStatus, Inbox.TransitionErrors, SubmissionsEnter;
    forall i | i in Inbox.SubmissionStatus(db.events)
      ensures i in db.inbox && db.inbox[i].status == Inbox.SubmissionStatus(db.events)[i]
    {
      FirstSubmissionWins(db.events, i);
    }
  }

  /** On legal histories the first submission is the only one, so both readings of it agree. */
  lemma {:induction false} FirstSubmissionWins(es: History, i: string)
    requires Inbox.TransitionErrors(es) == [] && SubmissionsEnter(es)
    ensures i in Inbox.SubmissionStatus(es) <==> i in Inbox.Entries(es)
    ensures i in Inbox.Entries(es) ==> Inbox.Entries(es)[i].status == Inbox.SubmissionStatus(es)[i] && i in Inbox.LastTypes(es)
  {
    if es != [] {
      FirstSubmissionWins(es[..|es|-1], i);
      assert Inbox.LegalIntentEvent(es[..|es|-1], es[|es|-1]);
    }
  }

  lemma SubmissionShape(e: Event)
    requires Shaped(e)
    ensures Inbox.IsSubmission(e.eventType) ==> Inbox.Enters(e)
  {
    hide Lifecycle.RunShaped, Inbox.IntentShaped, Sessions.SessionShaped, Receipts.ReceiptShaped, Inbox.Enters, NoIdKeys;
  }

  lemma {:induction false} GoodSubmissions(cfg: Config, es: History)
    requires Good(cfg, es)
    ensures SubmissionsEnter(es)
  {
    hide Basic, Shaped, Legal, Inbox.Enters, Inbox.IsSubmission;
    if es != [] {
      var front := es[..|es|-1];
      GoodSubmissions(cfg, front);
      SubmissionShape(es[|es|-1]);
      forall k | 0 <= k < |es| && Inbox.IsSubmission(es[k].eventType) ensures Inbox.Enters(es[k]) {
        if k < |front| { assert front[k] == es[k]; }
      }
    }
  }

  lemma SyncedMoreClean(db: Db)
    requires Synced(db) && Sessions.LegalSessions(db.events) && Workspace.LegalFiles(db.events)
    ensures MoreTablesClean(db) && db.artifacts == Workspace.Expected(db.events)
  {
    hide Lifecycle.Runs, Inbox.Intents, Inbox.Entries, Claims.Claims, Registry.Workers, Workspace.Artifacts, Sessions.Books,
      Sessions.ExpectedBook, Workspace.Expected, Workspace.LegalFiles, Sessions.LegalSessions, Sessions.ProjectionErrors,
        Workspace.ProjectionErrors;
    Workspace.LegalRebuild(db.events);
    Sessions.LegalNotStale(db.events);
  }

  lemma BackedFilesClean(db: Db)
    requires FilesBacked(db) && db.artifacts == Workspace.Expected(db.events)
    ensures FilesClean(db)
  {
    hide Workspace.Backed, Workspace.Expected;
  }

  lemma CoreClean(db: Db)
    requires Core(db)
    ensures ValidChain(db.cfg.hash, db.events) && HistoryClean(db.events) && TablesClean(db) && MoreTablesClean(db)
    ensures db.artifacts == Workspace.Expected(db.events)
  {
    hide Good, Synced, HistoryClean, TablesClean, MoreTablesClean, SubmissionsEnter, Inbox.AllIntentShaped, Sessions.LegalSessions,
      Workspace.LegalFiles, Workspace.Expected;
    GoodHistoryClean(db.cfg, db.events);
    GoodSubmissions(db.cfg, db.events);
    GoodShaped(db.cfg, db.events);
    GoodIntents(db.cfg, db.events);
    GoodRest(db.cfg, db.events);
    SyncedTablesClean(db);
    SyncedMoreClean(db);
  }

  /** Receipts are a snapshot: none taken, or taken from this very ledger. */
  ghost predicate FreshReceipts(receipts: ReceiptTable, es: History) {
    receipts == map[] || receipts == Receipts.RebuiltTable(es)
  }

  lemma FreshReceiptsClean(receipts: ReceiptTable, es: History)
    requires FreshReceipts(receipts, es) && Receipts.LegalReceipts(es)
    requires forall i :: i in Inbox.KnownIntents(es) ==> Receipts.ExactFor(es, i)
    ensures ReceiptsClean(receipts, es)
  {
    hide Receipts.RebuiltTable, Receipts.LegalReceipts, Receipts.ExactFor, Receipts.ExpectedRow;
    if receipts != map[] { Receipts.RebuiltIsExpected(es); }
  }

  /** The invariant implies a clean audit; a registration repeated after a restart is the one thing
      it may report. */
  lemma InvClean(db: Db, receipts: ReceiptTable, workspace: bool)
    requires Inv(db) && FreshReceipts(receipts, db.events)
    ensures Clean(db, receipts, workspace) <==> Registry.DuplicateErrors(db.events) == []
    ensures db.restarts == 0 ==> Clean(db, receipts, workspace)
  {
    Registry.DuplicateCheckExact(db.events);
    hide Inv, Holds, Sane, Good, Synced, HistoryClean, TablesClean, MoreTablesClean, FilesClean, ReceiptsClean,
      FreshReceipts, Accounted, Registry.RegisteredOnce,
      Registry.DuplicateErrors, Workspace.Backed, Workspace.Expected, Receipts.LegalReceipts, Receipts.ExactFor, Inbox.KnownIntents, Sessions.LegalSessions, Workspace.LegalFiles,
      FilesBacked;
    Aspects(db);
    CoreClean(db);
    GoodRest(db.cfg, db.events);
    forall i | i in Inbox.KnownIntents(db.events) ensures Receipts.ExactFor(db.events, i) {
      KnownInUse(db.cfg, db.events, i);
      GoodExactFor(db.cfg, db.events, i);
    }
    FreshReceiptsClean(receipts, db.events);
    BackedFilesClean(db);
  }
}
