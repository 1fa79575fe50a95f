/** Artifact files: `artifact_projection`, its rebuild, and the auditor's checks of artifact
    payloads, of the table, and of the files that back it. */
module Workspace {
  import opened Strings
  import opened Json
  import opened Ledger
  import opened State
  import opened Errors
  import opened Paths
  import Lifecycle

  const WRITTEN := "artifact_file_written"

  // ---------------------------------------------------------------- descriptors

  /** A JSON integer; Python's booleans are integers too. */
  function Integer(m: map<string, Json>, k: string): Option<int> {
    if k !in m then None
    else
      match m[k]
      case Int(i) => Some(i)
      case Bool(b) => Some(if b then 1 else 0)
      case _ => None
  }

  datatype Descriptor = Descriptor(artifactId: string, row: ArtifactRow)

  /** The five fields, when all have the type their column stores. */
  function Fields(c: map<string, Json>, e: Event): Option<Descriptor> {
    match (Text(c, "artifact_id"), Text(c, "intent_id"), Text(c, "relative_path"), Text(c, "sha256"), Integer(c, "size_bytes"))
    case (Some(id), Some(i), Some(p), Some(d), Some(n)) => Some(Descriptor(id, ArtifactRow(i, p, d, n, e.createdAt, e.id)))
    case _ => None
  }

  /** `parse_artifact_descriptor_event` finds a descriptor. */
  predicate Describes(e: Event) {
    && e.eventType == WRITTEN && Text(Doc(e), "type") == Some("artifact_file")
    && "content" in Doc(e) && Doc(e)["content"].Obj?
    && var c := Doc(e)["content"].fields;
      "artifact_id" in c && "intent_id" in c && "relative_path" in c && "sha256" in c && "size_bytes" in c
  }

  /** The row a descriptor event inserts, if its values fit their columns. */
  function Inserted(e: Event): Option<Descriptor> {
    Fields(Sub(Doc(e), "content"), e)
  }

  /** The auditor's reading: non-empty texts and a size that is not negative. */
  function Audited(e: Event): Option<Descriptor> {
    var d := Fields(Sub(Doc(e), "content"), e);
    if e.eventType == WRITTEN && d.Some? && Sound(d.value) then d else None
  }

  predicate Sound(d: Descriptor) {
    d.artifactId != "" && d.row.intentId != "" && d.row.path != "" && d.row.sha256 != "" && d.row.size >= 0
  }

  // ---------------------------------------------------------------- rebuild

  function Insert(t: ArtifactTable, e: Event): ArtifactTable {
    if Describes(e) && Inserted(e).Some? then t[Inserted(e).value.artifactId := Inserted(e).value.row] else t
  }

  /** What `rebuild_artifact_projection` computes from a history. */
  function Artifacts(es: History): ArtifactTable {
    if es == [] then map[] else Insert(Artifacts(es[..|es|-1]), es[|es|-1])
  }

  /** Inserting the row of this event violates no column type and no key. */
  predicate Insertable(before: History, e: Event) {
    Describes(e) ==> Inserted(e).Some? && Inserted(e).value.artifactId !in Artifacts(before)
  }

  predicate AllInsertable(es: History) {
    es == [] || (AllInsertable(es[..|es|-1]) && Insertable(es[..|es|-1], es[|es|-1]))
  }

  lemma {:induction false} InsertablePrefix(es: History, n: nat)
    requires n <= |es| && AllInsertable(es)
    ensures AllInsertable(es[..n])
  {
    if n == |es| {
      assert es[..n] == es;
    } else {
      InsertablePrefix(es[..|es|-1], n);
      assert es[..|es|-1][..n] == es[..n];
    }
  }

  /** Event `n` describes a file that cannot be inserted: a value does not fit its column, or the file's id is there. */
  ghost predicate Unfit(es: History, n: nat) {
    n < |es| && Describes(es[n]) && (!DescribesFile(es[n]) || exists m: nat :: m < n && DescribesFile(es[m]) && FileOf(es[m]) == FileOf(es[n]))
  }

  lemma {:induction false} InsertedSometime(es: History, a: string)
    ensures a in Artifacts(es) <==> exists m: nat :: m < |es| && DescribesFile(es[m]) && FileOf(es[m]) == Some(a)
  {
    hide DescribesFile, Insert, RowFrom, FileOf;
    if es != [] {
      var front, k := es[..|es|-1], |es| - 1;
      InsertedSometime(front, a);
      InsertIs(Artifacts(front), es[k]);
      if DescribesFile(es[k]) { FileNamed(es[k]); }
      forall m: nat | m < k ensures front[m] == es[m] { }
    }
  }

  lemma FitIs(es: History, n: nat)
    requires n < |es|
    ensures !Insertable(es[..n], es[n]) <==> Unfit(es, n)
  {
    DescribedIs(es[n]);
    hide Describes, DescribesFile, Inserted, FileOf, Artifacts;
    if Describes(es[n]) && DescribesFile(es[n]) {
      FileNamed(es[n]);
      InsertedSometime(es[..n], FileOf(es[n]).value);
      forall m: nat | m < n ensures es[..n][m] == es[m] { }
    }
  }

  lemma DescribedIs(e: Event)
    ensures Describes(e) ==> (Inserted(e).Some? <==> DescribesFile(e))
    ensures Describes(e) && Inserted(e).Some? ==> FileOf(e) == Some(Inserted(e).value.artifactId)
  {
    hide Doc;
  }

  /** The rebuild goes through if and only if every description fits its columns and no file id is described twice. */
  lemma {:induction false} AllInsertableIs(es: History)
    ensures AllInsertable(es) <==> forall n: nat :: !Unfit(es, n)
  {
    hide Insertable, Unfit;
    if es == [] {
      forall n: nat ensures !Unfit(es, n) { NothingUnfit(n); }
    } else {
      var front, k := es[..|es|-1], |es| - 1;
      AllInsertableIs(front);
      FitIs(es, k);
      forall n: nat ensures Unfit(es, n) ==> n <= k { UnfitInside(es, n); }
      forall n: nat ensures Unfit(front, n) ==> n < k { UnfitInside(front, n); }
      forall n: nat | n < k ensures Unfit(es, n) <==> Unfit(front, n) {
        FitIs(es, n);
        FitIs(front, n);
        assert front[..n] == es[..n];
      }
    }
  }

  lemma NothingUnfit(n: nat)
    ensures !Unfit([], n)
  {
  }

  lemma UnfitInside(es: History, n: nat)
    ensures Unfit(es, n) ==> n < |es|
  {
  }

  /** `rebuild_artifact_projection`: one transaction, undone when an insert fails. */
  method RebuildArtifacts(db: Database) returns (ok: bool)
    modifies db`artifacts
    ensures ok <==> AllInsertable(db.events)
    ensures db.artifacts == if ok then Artifacts(db.events) else old(db.artifacts)
  {
    hide Describes, Inserted;
    var table: ArtifactTable := map[];
    var rows := db.events;
    for k := 0 to |rows|
      invariant table == Artifacts(rows[..k]) && AllInsertable(rows[..k]) && db.artifacts == old(db.artifacts)
    {
      var e := rows[k];
      Upto(rows, k);
      if Describes(e) {
        var d := Inserted(e);
        if d.None? || d.value.artifactId in table {
          if AllInsertable(rows) { InsertablePrefix(rows, k + 1); }
          return false;
        }
        table := table[d.value.artifactId := d.value.row];
      }
    }
    assert rows[..|rows|] == rows;
    db.artifacts := table;
    return true;
  }

  // ---------------------------------------------------------------- the auditor's table

  function Expect(t: ArtifactTable, e: Event): ArtifactTable {
    if Audited(e).Some? then t[Audited(e).value.artifactId := Audited(e).value.row] else t
  }

  /** What `compute_expected_artifact_projection` computes from a history. */
  function Expected(es: History): ArtifactTable {
    if es == [] then map[] else Expect(Expected(es[..|es|-1]), es[|es|-1])
  }

  method ComputeExpectedArtifacts(es: History) returns (expected: ArtifactTable)
    ensures expected == Expected(es)
  {
    hide Audited;
    expected := map[];
    for k := 0 to |es|
      invariant expected == Expected(es[..k])
    {
      Upto(es, k);
      var d := Audited(es[k]);
      if d.Some? { expected := expected[d.value.artifactId := d.value.row]; }
    }
    assert es[..|es|] == es;
  }

  function RowErrors(actual: ArtifactTable, expected: ArtifactTable): string -> ErrorList {
    (a: string) =>
      if a !in expected then []
      else if a !in actual then [AuditError("ARTIFACT_PROJECTION_MISMATCH", a)]
      else
        When(actual[a].(lastEventId := expected[a].lastEventId) != expected[a], "ARTIFACT_PROJECTION_MISMATCH", a) +
        When(actual[a].lastEventId != expected[a].lastEventId, "ARTIFACT_PROJECTION_LAST_EVENT_ID_MISMATCH", a)
  }

  function ProjectionErrors(actual: ArtifactTable, expected: ArtifactTable): ErrorList {
    Collect(SortedKeys(expected.Keys), RowErrors(actual, expected)) +
    Collect(SortedKeys(actual.Keys - expected.Keys), Unexpected("ARTIFACT_PROJECTION_UNEXPECTED_ENTRY"))
  }

  /** `check_artifact_projection`. */
  method CheckArtifactProjection(actual: ArtifactTable, es: History) returns (errors: ErrorList)
    ensures errors == ProjectionErrors(actual, Expected(es))
  {
    var expected := ComputeExpectedArtifacts(es);
    errors := Report(SortedKeys(expected.Keys), RowErrors(actual, expected));
    var more := Report(SortedKeys(actual.Keys - expected.Keys), Unexpected("ARTIFACT_PROJECTION_UNEXPECTED_ENTRY"));
    errors := errors + more;
  }

  lemma RowsEmpty(actual: ArtifactTable, expected: ArtifactTable)
    ensures Collect(SortedKeys(expected.Keys), RowErrors(actual, expected)) == []
       <==> forall a :: a in expected ==> a in actual && actual[a] == expected[a]
  {
    var of := RowErrors(actual, expected);
    CollectEmpty(SortedKeys(expected.Keys), of);
    forall a | a in expected ensures of(a) == [] <==> (a in actual && actual[a] == expected[a]) { }
  }

  /** What the comparison has to say of an artifact. */
  predicate RowWrong(actual: ArtifactTable, expected: ArtifactTable, a: string, code: string) {
    if a !in expected then a in actual && code == "ARTIFACT_PROJECTION_UNEXPECTED_ENTRY"
    else if a !in actual then code == "ARTIFACT_PROJECTION_MISMATCH"
    else
      || (code == "ARTIFACT_PROJECTION_MISMATCH"
          && !(actual[a].intentId == expected[a].intentId && actual[a].path == expected[a].path && actual[a].sha256 == expected[a].sha256
               && actual[a].size == expected[a].size && actual[a].createdAt == expected[a].createdAt))
      || (code == "ARTIFACT_PROJECTION_LAST_EVENT_ID_MISMATCH" && actual[a].lastEventId != expected[a].lastEventId)
  }

  lemma RowFinds(actual: ArtifactTable, expected: ArtifactTable, a: string, x: AuditError)
    ensures x in RowErrors(actual, expected)(a) <==> x.id == a && a in expected && RowWrong(actual, expected, a, x.code)
  {
    if a in expected && a in actual {
      WhenFinds(actual[a].(lastEventId := expected[a].lastEventId) != expected[a], "ARTIFACT_PROJECTION_MISMATCH", a, x);
      WhenFinds(actual[a].lastEventId != expected[a].lastEventId, "ARTIFACT_PROJECTION_LAST_EVENT_ID_MISMATCH", a, x);
      hide When;
    }
  }

  /** It reports exactly that. */
  lemma ProjectionErrorsFind(actual: ArtifactTable, expected: ArtifactTable, x: AuditError)
    ensures x in ProjectionErrors(actual, expected) <==> RowWrong(actual, expected, x.id, x.code)
  {
    forall a { RowFinds(actual, expected, a, x); }
    hide RowErrors, Collect, Unexpected;
    ReportFinds(SortedKeys(expected.Keys), RowErrors(actual, expected), x);
    UnexpectedFinds(actual.Keys - expected.Keys, "ARTIFACT_PROJECTION_UNEXPECTED_ENTRY", x);
  }

  /** The comparison is exact: no error if and only if the tables are equal. */
  lemma ProjectionErrorsEmpty(actual: ArtifactTable, expected: ArtifactTable)
    ensures ProjectionErrors(actual, expected) == [] <==> actual == expected
  {
    hide RowErrors, Collect, Unexpected;
    RowsEmpty(actual, expected);
    UnexpectedEmpty(actual.Keys - expected.Keys, "ARTIFACT_PROJECTION_UNEXPECTED_ENTRY");
    if actual.Keys - expected.Keys == {} && forall a :: a in expected ==> a in actual && actual[a] == expected[a] {
      assert forall a :: a in actual ==> a in actual.Keys - expected.Keys || a in expected;
      assert actual == expected;
    }
  }

  // ---------------------------------------------------------------- files

  function FileErrors(digest: Bytes -> string, files: Files, expected: ArtifactTable): string -> ErrorList {
    (a: string) =>
      if a !in expected then []
      else
        var row := expected[a];
        match NormalizeRelativePath(row.path)
        case PathError(_) => [AuditError("ARTIFACT_PATH_INVALID", a)]
        case Path(p) =>
          if (row.intentId, p) !in files then [AuditError("MISSING_ARTIFACT_FILE", a)]
          else if |files[(row.intentId, p)]| != row.size then [AuditError("SIZE_MISMATCH", a)]
          else When(digest(files[(row.intentId, p)]) != row.sha256, "HASH_MISMATCH", a)
  }

  /** `check_artifact_files`. */
  method CheckArtifactFiles(digest: Bytes -> string, files: Files, es: History) returns (errors: ErrorList)
    ensures errors == Collect(SortedKeys(Expected(es).Keys), FileErrors(digest, files, Expected(es)))
  {
    var expected := ComputeExpectedArtifacts(es);
    errors := Report(SortedKeys(expected.Keys), FileErrors(digest, files, expected));
  }

  /** The row's path is valid and names a file of the recorded size and digest. */
  predicate Backed(digest: Bytes -> string, files: Files, row: ArtifactRow) {
    match NormalizeRelativePath(row.path)
    case PathError(_) => false
    case Path(p) =>
      (row.intentId, p) in files && |files[(row.intentId, p)]| == row.size && digest(files[(row.intentId, p)]) == row.sha256
  }

  /** The file check is exact: no error if and only if every expected row is backed. */
  lemma FileErrorsEmpty(digest: Bytes -> string, files: Files, expected: ArtifactTable)
    ensures Collect(SortedKeys(expected.Keys), FileErrors(digest, files, expected)) == []
       <==> forall a :: a in expected ==> Backed(digest, files, expected[a])
  {
    hide NormalizeRelativePath;
    var of := FileErrors(digest, files, expected);
    CollectEmpty(SortedKeys(expected.Keys), of);
    forall a | a in expected ensures of(a) == [] <==> Backed(digest, files, expected[a]) { }
  }

  /** What the file check has to say of a row: the first of path, presence, size and digest that is wrong. */
  predicate FileWrong(digest: Bytes -> string, files: Files, row: ArtifactRow, code: string) {
    match NormalizeRelativePath(row.path)
    case PathError(_) => code == "ARTIFACT_PATH_INVALID"
    case Path(p) =>
      if (row.intentId, p) !in files then code == "MISSING_ARTIFACT_FILE"
      else
        var content := files[(row.intentId, p)];
        || (code == "SIZE_MISMATCH" && |content| != row.size)
        || (code == "HASH_MISMATCH" && |content| == row.size && digest(content) != row.sha256)
  }

  lemma FileRowFinds(digest: Bytes -> string, files: Files, expected: ArtifactTable, a: string, x: AuditError)
    ensures x in FileErrors(digest, files, expected)(a) <==> x.id == a && a in expected && FileWrong(digest, files, expected[a], x.code)
  {
    hide NormalizeRelativePath;
  }

  /** It reports exactly that. */
  lemma FileErrorsFind(digest: Bytes -> string, files: Files, expected: ArtifactTable, x: AuditError)
    ensures x in Collect(SortedKeys(expected.Keys), FileErrors(digest, files, expected))
       <==> x.id in expected && FileWrong(digest, files, expected[x.id], x.code)
  {
    forall a { FileRowFinds(digest, files, expected, a, x); }
    hide FileErrors, FileWrong, Collect;
    ReportFinds(SortedKeys(expected.Keys), FileErrors(digest, files, expected), x);
  }

  // ---------------------------------------------------------------- check_artifact_schema

  /** The runs some `run_created` event names. */
  function CreatedRuns(es: History): set<string> {
    if es == [] then {}
    else
      var e := es[|es|-1];
      CreatedRuns(es[..|es|-1]) +
      if e.eventType == "run_created" && Lifecycle.RunId(e).Some? then {Lifecycle.RunId(e).value} else {}
  }

  /** An `artifact_written` event belongs to a created run and carries a typed artifact. */
  predicate CarriesArtifact(known: set<string>, e: Event) {
    && IsDoc(e) && Lifecycle.RunId(e).Some? && Lifecycle.RunId(e).value in known
    && "artifact" in Doc(e) && Doc(e)["artifact"].Obj?
    && Text(Doc(e)["artifact"].fields, "type").Some? && "content" in Doc(e)["artifact"].fields
  }

  predicate CarriesFile(e: Event) {
    Text(Doc(e), "type") == Some("artifact_file") && Audited(e).Some?
  }

  function RunArtifactErrors(known: set<string>, es: History): ErrorList {
    if es == [] then []
    else
      var e := es[|es|-1];
      RunArtifactErrors(known, es[..|es|-1]) +
      When(e.eventType == "artifact_written" && !CarriesArtifact(known, e), "ARTIFACT_SCHEMA_INVALID", e.id)
  }

  function FileSchemaErrors(es: History): ErrorList {
    if es == [] then []
    else
      var e := es[|es|-1];
      FileSchemaErrors(es[..|es|-1]) + When(e.eventType == WRITTEN && !CarriesFile(e), "ARTIFACT_SCHEMA_INVALID", e.id)
  }

  method CollectCreatedRuns(es: History) returns (known: set<string>)
    ensures known == CreatedRuns(es)
  {
    known := {};
    for k := 0 to |es|
      invariant known == CreatedRuns(es[..k])
    {
      Upto(es, k);
      if es[k].eventType == "run_created" && Lifecycle.RunId(es[k]).Some? {
        known := known + {Lifecycle.RunId(es[k]).value};
      }
    }
    assert es[..|es|] == es;
  }

  /** `check_artifact_schema`. */
  method CheckArtifactSchema(es: History) returns (errors: ErrorList)
    ensures errors == RunArtifactErrors(CreatedRuns(es), es) + FileSchemaErrors(es)
  {
    hide CarriesArtifact, CarriesFile;
    var known := CollectCreatedRuns(es);
    errors := [];
    for k := 0 to |es|
      invariant errors == RunArtifactErrors(known, es[..k])
    {
      Upto(es, k);
      if es[k].eventType == "artifact_written" && !CarriesArtifact(known, es[k]) {
        errors := errors + [AuditError("ARTIFACT_SCHEMA_INVALID", es[k].id)];
      }
    }
    var more: ErrorList := [];
    for k := 0 to |es|
      invariant more == FileSchemaErrors(es[..k])
    {
      Upto(es, k);
      if es[k].eventType == WRITTEN && !CarriesFile(es[k]) {
        more := more + [AuditError("ARTIFACT_SCHEMA_INVALID", es[k].id)];
      }
    }
    assert es[..|es|] == es;
    errors := errors + more;
  }

  // ---------------------------------------------------------------- what the check reports

  /** The event creates the run. */
  predicate Creates(e: Event, r: string) {
    e.eventType == "run_created" && Name(Doc(e), "run_id") == Some(r)
  }

  lemma {:induction false} CreatedSometime(es: History, r: string)
    ensures r in CreatedRuns(es) <==> exists n: nat :: n < |es| && Creates(es[n], r)
  {
    hide Doc;
    if es != [] {
      var front := es[..|es|-1];
      CreatedSometime(front, r);
      if n: nat :| n < |front| && Creates(front[n], r) { assert Creates(es[n], r); }
      if n: nat :| n < |es| && Creates(es[n], r) {
        if n < |front| { assert Creates(front[n], r); }
      }
    }
  }

  /** The event says that an artifact was written, and carries none with a type and a content. */
  predicate Artless(e: Event) {
    var a := Sub(Doc(e), "artifact");
    e.eventType == "artifact_written" && (Text(a, "type").None? || "content" !in a)
  }

  /** It does not name a run that the history creates. */
  ghost predicate Runless(es: History, e: Event) {
    e.eventType == "artifact_written" && forall r, n: nat :: Name(Doc(e), "run_id") == Some(r) && n < |es| ==> !Creates(es[n], r)
  }

  /** The event says that a file was written, and does not describe one: four names and a size. */
  predicate Fileless(e: Event) {
    var c := Sub(Doc(e), "content");
    && e.eventType == "artifact_file_written"
    && !(Text(Doc(e), "type") == Some("artifact_file")
         && Name(c, "artifact_id").Some? && Name(c, "intent_id").Some? && Name(c, "relative_path").Some? && Name(c, "sha256").Some?
         && Integer(c, "size_bytes").Some? && Integer(c, "size_bytes").value >= 0)
  }

  lemma ArtifactIs(es: History, e: Event)
    ensures e.eventType == "artifact_written" && !CarriesArtifact(CreatedRuns(es), e) <==> Artless(e) || Runless(es, e)
  {
    if Lifecycle.RunId(e).Some? { CreatedSometime(es, Lifecycle.RunId(e).value); }
    hide CreatedRuns;
  }

  lemma FileIs(e: Event)
    ensures e.eventType == WRITTEN && !CarriesFile(e) <==> Fileless(e)
  {
    hide Doc, Integer;
  }

  lemma {:induction false} RunArtifactFinds(known: set<string>, es: History, x: AuditError)
    ensures x in RunArtifactErrors(known, es) <==> exists n: nat ::
      n < |es| && es[n].eventType == "artifact_written" && !CarriesArtifact(known, es[n]) && x == AuditError("ARTIFACT_SCHEMA_INVALID", es[n].id)
  {
    hide CarriesArtifact;
    if es != [] {
      RunArtifactFinds(known, es[..|es|-1], x);
      forall n: nat | n < |es| - 1 ensures es[..|es|-1][n] == es[n] { }
    }
  }

  lemma {:induction false} FileFinds(es: History, x: AuditError)
    ensures x in FileSchemaErrors(es) <==>
      exists n: nat :: n < |es| && Fileless(es[n]) && x == AuditError("ARTIFACT_SCHEMA_INVALID", es[n].id)
  {
    hide CarriesFile, Fileless;
    if es != [] {
      FileFinds(es[..|es|-1], x);
      FileIs(es[|es|-1]);
      forall n: nat | n < |es| - 1 ensures es[..|es|-1][n] == es[n] { }
    }
  }

  /** The check reports exactly the artifact events without a typed artifact or a created run and the file events
      without a description. */
  lemma SchemaFinds(es: History, x: AuditError)
    ensures x in RunArtifactErrors(CreatedRuns(es), es) + FileSchemaErrors(es) <==> exists n: nat ::
      n < |es| && (Artless(es[n]) || Runless(es, es[n]) || Fileless(es[n])) && x == AuditError("ARTIFACT_SCHEMA_INVALID", es[n].id)
  {
    hide CarriesArtifact, Artless, Runless, Fileless, CreatedRuns, RunArtifactErrors, FileSchemaErrors;
    RunArtifactFinds(CreatedRuns(es), es, x);
    FileFinds(es, x);
    forall n: nat | n < |es| { ArtifactIs(es, es[n]); }
  }

  /** Event `n` is one of those. */
  ghost predicate Malformed(es: History, n: nat) {
    n < |es| && (Artless(es[n]) || Runless(es, es[n]) || Fileless(es[n]))
  }

  lemma SchemaCheckExact(es: History)
    ensures RunArtifactErrors(CreatedRuns(es), es) + FileSchemaErrors(es) == [] <==> forall n: nat :: !Malformed(es, n)
  {
    hide CreatedRuns, RunArtifactErrors, FileSchemaErrors, Artless, Runless, Fileless;
    var errors := RunArtifactErrors(CreatedRuns(es), es) + FileSchemaErrors(es);
    if errors != [] {
      SchemaFinds(es, errors[0]);
      var n: nat :| n < |es| && (Artless(es[n]) || Runless(es, es[n]) || Fileless(es[n]))
        && errors[0] == AuditError("ARTIFACT_SCHEMA_INVALID", es[n].id);
      assert Malformed(es, n);
    }
    if n: nat :| Malformed(es, n) { SchemaFinds(es, AuditError("ARTIFACT_SCHEMA_INVALID", es[n].id)); }
  }

  // ---------------------------------------------------------------- rows by position

  /** The event describes a file with values that fit their columns. */
  predicate DescribesFile(e: Event) {
    var c := Sub(Doc(e), "content");
    && e.eventType == "artifact_file_written" && Text(Doc(e), "type") == Some("artifact_file") && Text(c, "artifact_id").Some?
    && Text(c, "intent_id").Some? && Text(c, "relative_path").Some? && Text(c, "sha256").Some? && Integer(c, "size_bytes").Some?
  }

  /** The auditor's reading: a file event with names that are not empty and a size that is not negative. */
  predicate DescribesWell(e: Event) {
    var c := Sub(Doc(e), "content");
    && e.eventType == "artifact_file_written" && Name(c, "artifact_id").Some?
    && Name(c, "intent_id").Some? && Name(c, "relative_path").Some? && Name(c, "sha256").Some?
    && Integer(c, "size_bytes").Some? && Integer(c, "size_bytes").value >= 0
  }

  function FileOf(e: Event): Option<string> {
    Text(Sub(Doc(e), "content"), "artifact_id")
  }

  function RowFrom(e: Event): ArtifactRow
    requires DescribesFile(e) || DescribesWell(e)
  {
    var c := Sub(Doc(e), "content");
    ArtifactRow(Text(c, "intent_id").value, Text(c, "relative_path").value, Text(c, "sha256").value, Integer(c, "size_bytes").value,
                e.createdAt, e.id)
  }

  /** Event `n` is the last that describes file `a` to the rebuild. */
  ghost predicate LastDescribed(es: History, a: string, n: nat) {
    && n < |es| && DescribesFile(es[n]) && FileOf(es[n]) == Some(a)
    && forall k :: n < k < |es| ==> !(DescribesFile(es[k]) && FileOf(es[k]) == Some(a))
  }

  /** Event `n` is the last that describes file `a` to the auditor. */
  ghost predicate LastExpected(es: History, a: string, n: nat) {
    && n < |es| && DescribesWell(es[n]) && FileOf(es[n]) == Some(a)
    && forall k :: n < k < |es| ==> !(DescribesWell(es[k]) && FileOf(es[k]) == Some(a))
  }

  lemma InsertIs(t: ArtifactTable, e: Event)
    ensures Insert(t, e) == if DescribesFile(e) then t[FileOf(e).value := RowFrom(e)] else t
  {
    hide Doc;
  }

  lemma ExpectIs(t: ArtifactTable, e: Event)
    ensures Expect(t, e) == if DescribesWell(e) then t[FileOf(e).value := RowFrom(e)] else t
  {
    hide Integer, Doc;
  }

  lemma FileNamed(e: Event)
    requires DescribesFile(e) || DescribesWell(e)
    ensures FileOf(e).Some?
  {
  }

  /** A rebuilt artifact row is that of the last event that describes the file. */
  lemma {:induction false} RowIsLast(es: History, a: string)
    ensures a in Artifacts(es) <==> exists n: nat :: LastDescribed(es, a, n)
    ensures forall n: nat :: LastDescribed(es, a, n) ==> DescribesFile(es[n]) && a in Artifacts(es) && Artifacts(es)[a] == RowFrom(es[n])
  {
    hide DescribesFile, Insert, RowFrom, FileOf;
    if es != [] {
      var front, m := es[..|es|-1], |es| - 1;
      RowIsLast(front, a);
      InsertIs(Artifacts(front), es[m]);
      if DescribesFile(es[m]) { FileNamed(es[m]); }
      if DescribesFile(es[m]) && FileOf(es[m]) == Some(a) {
        assert LastDescribed(es, a, m);
        assert forall n: nat :: LastDescribed(es, a, n) ==> n == m;
      } else {
        forall n: nat ensures LastDescribed(es, a, n) <==> LastDescribed(front, a, n) {
          if n < m { assert front[n] == es[n]; }
        }
      }
    }
  }

  /** So is the auditor's, of the events it reads. */
  lemma {:induction false} ExpectedIsLast(es: History, a: string)
    ensures a in Expected(es) <==> exists n: nat :: LastExpected(es, a, n)
    ensures forall n: nat :: LastExpected(es, a, n) ==> DescribesWell(es[n]) && a in Expected(es) && Expected(es)[a] == RowFrom(es[n])
  {
    hide DescribesWell, Expect, RowFrom, FileOf;
    if es != [] {
      var front, m := es[..|es|-1], |es| - 1;
      ExpectedIsLast(front, a);
      ExpectIs(Expected(front), es[m]);
      if DescribesWell(es[m]) { FileNamed(es[m]); }
      if DescribesWell(es[m]) && FileOf(es[m]) == Some(a) {
        assert LastExpected(es, a, m);
        assert forall n: nat :: LastExpected(es, a, n) ==> n == m;
      } else {
        forall n: nat ensures LastExpected(es, a, n) <==> LastExpected(front, a, n) {
          if n < m { assert front[n] == es[n]; }
        }
      }
    }
  }

  // ---------------------------------------------------------------- legality

  /** A written file is described soundly, under a new id, at a normal path not written before. */
  predicate LegalFileEvent(before: History, e: Event) {
    e.eventType == WRITTEN ==>
      && Describes(e) && CarriesFile(e)
      && var d := Inserted(e).value;
        && d.artifactId !in Artifacts(before) && NormalizeRelativePath(d.row.path) == Path(d.row.path)
        && !Taken(Artifacts(before), d.row.intentId, d.row.path)
  }

  predicate Taken(t: ArtifactTable, i: string, p: string) {
    exists a :: a in t && t[a].intentId == i && t[a].path == p
  }

  /** An artifact event extends a run that was created before, and carries an artifact. */
  predicate LegalArtifactEvent(before: History, e: Event) {
    e.eventType == "artifact_written" ==> CarriesArtifact(CreatedRuns(before), e)
  }

  ghost predicate LegalFiles(es: History) {
    es == [] ||
    (LegalFiles(es[..|es|-1]) && LegalFileEvent(es[..|es|-1], es[|es|-1]) && LegalArtifactEvent(es[..|es|-1], es[|es|-1]))
  }

  lemma LegalInserts(before: History, e: Event)
    requires LegalFileEvent(before, e)
    ensures Insertable(before, e)
    ensures forall t: ArtifactTable :: Insert(t, e) == Expect(t, e)
  {
  }

  /** On legal histories rebuild and auditor agree, and rebuild succeeds. */
  lemma {:induction false} LegalRebuild(es: History)
    requires LegalFiles(es)
    ensures AllInsertable(es) && Artifacts(es) == Expected(es) && FileSchemaErrors(es) == []
  {
    if es != [] {
      LegalRebuild(es[..|es|-1]);
      LegalInserts(es[..|es|-1], es[|es|-1]);
      hide Insertable, Insert, Expect, CarriesFile, Describes, Inserted, Taken, LegalArtifactEvent;
    }
  }

  lemma KnownGrows(known: set<string>, more: set<string>, e: Event)
    requires CarriesArtifact(known, e) && known <= more
    ensures CarriesArtifact(more, e)
  {
  }

  lemma {:induction false} LegalSchemaClean(es: History, known: set<string>)
    requires LegalFiles(es) && CreatedRuns(es) <= known
    ensures RunArtifactErrors(known, es) == []
  {
    hide CarriesArtifact, LegalFileEvent;
    if es != [] {
      var front, e := es[..|es|-1], es[|es|-1];
      LegalSchemaClean(front, known);
      if e.eventType == "artifact_written" { KnownGrows(CreatedRuns(front), known, e); }
    }
  }

  /** Every artifact file event has its row in the table. */
  lemma {:induction false} RowRecorded(es: History, k: nat)
    requires LegalFiles(es) && k < |es| && es[k].eventType == WRITTEN
    ensures Inserted(es[k]).Some? && Inserted(es[k]).value.artifactId in Artifacts(es)
    ensures Artifacts(es)[Inserted(es[k]).value.artifactId] == Inserted(es[k]).value.row
  {
    hide CarriesFile, Inserted, Taken, LegalArtifactEvent;
    var front, e := es[..|es|-1], es[|es|-1];
    if k < |es| - 1 {
      RowRecorded(front, k);
      assert front[k] == es[k];
    } else {
      FileInserted(front, e);
    }
  }

  lemma FileInserted(before: History, e: Event)
    requires LegalFileEvent(before, e) && e.eventType == WRITTEN
    ensures Inserted(e).Some?
  {
  }

  /** Write-once: no two file events name the same intent and normalized path. */
  lemma {:induction false} WriteOnce(es: History, j: nat, k: nat)
    requires LegalFiles(es) && j < k < |es| && es[j].eventType == WRITTEN && es[k].eventType == WRITTEN
    ensures Inserted(es[j]).Some? && Inserted(es[k]).Some?
    ensures var a, b := Inserted(es[j]).value.row, Inserted(es[k]).value.row;
      a.intentId != b.intentId || a.path != b.path
  {
    hide CarriesFile, Inserted, LegalArtifactEvent;
    var front := es[..|es|-1];
    if k < |es| - 1 {
      WriteOnce(front, j, k);
    } else {
      assert front[j] == es[j];
      RowRecorded(front, j);
      FileInserted(front, es[k]);
    }
  }

  /** Every row has its own intent and normal path. */
  ghost predicate Located(t: ArtifactTable) {
    && (forall a :: a in t ==> NormalizeRelativePath(t[a].path) == Path(t[a].path))
    && forall a, b :: a in t && b in t && a != b ==> t[a].intentId != t[b].intentId || t[a].path != t[b].path
  }

  lemma {:induction false} RowsLocated(es: History)
    requires LegalFiles(es)
    ensures Located(Artifacts(es))
  {
    hide CarriesFile, Describes, Inserted, LegalArtifactEvent, NormalizeRelativePath;
    if es != [] {
      RowsLocated(es[..|es|-1]);
      if es[|es|-1].eventType == WRITTEN { FileInserted(es[..|es|-1], es[|es|-1]); } else { NotDescribed(es[|es|-1]); }
    }
  }

  lemma NotDescribed(e: Event)
    requires e.eventType != WRITTEN
    ensures !Describes(e)
  {
  }
}
