/** Export of a ledger with its artifact files, import into an empty ledger, and replay. */
module Archive {
  import opened Strings
  import opened Json
  import opened JsonText
  import opened Ledger
  import opened State
  import opened Errors
  import opened Paths
  import opened Jsonl
  import opened Invariant
  import Inbox
  import Claims
  import Lifecycle
  import Registry
  import Sessions
  import Workspace
  import Receipts
  import opened Auditor

  /** The digests of a text file and of a directory tree. */
  datatype Seals = Seals(text: string -> string, tree: Files -> string)

  /** An archive directory. */
  datatype Folder = Folder(ledger: string, manifest: string, workspace: Files)

  // ---------------------------------------------------------------- files out

  /** One artifact copied: the file must be there, intact, and its destination free. */
  function CopyOne(digest: Bytes -> string, source: Files, to: Files, row: ArtifactRow): Outcome<Files> {
    match NormalizeRelativePath(row.path)
    case PathError(code) => Fail(code)
    case Path(p) =>
      var key := (row.intentId, p);
      if key !in source then Fail("MISSING_ARTIFACT_FILE")
      else if |source[key]| != row.size then Fail("SIZE_MISMATCH")
      else if digest(source[key]) != row.sha256 then Fail("HASH_MISMATCH")
      else if key in to then Fail("FILE_EXISTS")
      else Ok(to[key := source[key]])
  }

  /** The files copied for the artifacts `keys` of table `t`, one after the other. */
  function Copy(digest: Bytes -> string, source: Files, t: ArtifactTable, keys: seq<string>): Outcome<Files> {
    if keys == [] then Ok(map[])
    else
      match Copy(digest, source, t, keys[..|keys|-1])
      case Fail(code) => Fail(code)
      case Ok(to) => if keys[|keys|-1] in t then CopyOne(digest, source, to, t[keys[|keys|-1]]) else Ok(to)
  }

  lemma {:induction false} CopyFailsEarly(digest: Bytes -> string, source: Files, t: ArtifactTable, keys: seq<string>, n: nat)
    requires n <= |keys| && Copy(digest, source, t, keys[..n]).Fail?
    ensures Copy(digest, source, t, keys) == Copy(digest, source, t, keys[..n])
  {
    hide CopyOne;
    if n < |keys| {
      assert keys[..|keys|-1][..n] == keys[..n];
      CopyFailsEarly(digest, source, t, keys[..|keys|-1], n);
    } else {
      assert keys[..n] == keys;
    }
  }

  lemma CopyStep(digest: Bytes -> string, source: Files, t: ArtifactTable, keys: seq<string>, n: nat, to: Files)
    requires n < |keys| && keys[n] in t && Copy(digest, source, t, keys[..n]) == Ok(to)
    ensures Copy(digest, source, t, keys[..n+1]) == CopyOne(digest, source, to, t[keys[n]])
  {
    hide CopyOne;
    assert keys[..n+1][..n] == keys[..n];
  }

  lemma CopyNothing(digest: Bytes -> string, source: Files, t: ArtifactTable)
    ensures Copy(digest, source, t, []) == Ok(map[])
  {
  }

  /** `_copy_workspace_files`. */
  method CopyWorkspaceFiles(digest: Bytes -> string, source: Files, t: ArtifactTable) returns (r: Outcome<Files>)
    ensures r == Copy(digest, source, t, SortedKeys(t.Keys))
  {
    hide CopyOne, Copy;
    var keys := SortedKeys(t.Keys);
    var to: Files := map[];
    CopyNothing(digest, source, t);
    for n := 0 to |keys|
      invariant Copy(digest, source, t, keys[..n]) == Ok(to)
    {
      CopyStep(digest, source, t, keys, n, to);
      var copied := CopyOne(digest, source, to, t[keys[n]]);
      if copied.Fail? {
        CopyFailsEarly(digest, source, t, keys, n + 1);
        return copied;
      }
      to := copied.value;
    }
    assert keys[..|keys|] == keys;
    return Ok(to);
  }

  // ---------------------------------------------------------------- export

  function Manifest(seals: Seals, createdAt: string, es: History, ledger: string, workspace: Files): map<string, Json>
    requires es != []
  {
    map["created_at" := Str(createdAt), "first_event_id" := Str(es[0].id), "last_event_id" := Str(es[|es|-1].id),
        "event_count" := Int(|es|), "ledger_events_sha256" := Str(seals.text(ledger)),
        "workspace_sha256" := Str(seals.tree(workspace))]
  }

  /** `export_archive` into an output directory that is free or not. */
  function Export(db: Db, seals: Seals, createdAt: string, free: bool): Outcome<Folder> {
    if !free then Fail("ARCHIVE_EXISTS")
    else if db.events == [] then Fail("EMPTY_LEDGER")
    else
      match Copy(db.cfg.digest, db.files, db.artifacts, SortedKeys(db.artifacts.Keys))
      case Fail(code) => Fail(code)
      case Ok(workspace) =>
        var ledger := LedgerJsonl(db.events);
        Ok(Folder(ledger, Dumps(Obj(Manifest(seals, createdAt, db.events, ledger, workspace)), true), workspace))
  }

  method ExportArchive(db: Database, seals: Seals, createdAt: string, free: bool) returns (r: Outcome<Folder>)
    ensures r == Export(db.View(), seals, createdAt, free)
  {
    hide Copy, LedgerJsonl, Dumps, Manifest;
    if !free { return Fail("ARCHIVE_EXISTS"); }
    if db.events == [] { return Fail("EMPTY_LEDGER"); }
    var ledger := LedgerJsonl(db.events);
    var workspace := CopyWorkspaceFiles(db.cfg.digest, db.files, db.artifacts);
    if workspace.Fail? { return Fail(workspace.code); }
    var manifest := Manifest(seals, createdAt, db.events, ledger, workspace.value);
    return Ok(Folder(ledger, Dumps(Obj(manifest), true), workspace.value));
  }

  // ---------------------------------------------------------------- replay

  /** The rebuilds that may raise do not. */
  predicate Replayable(es: History) {
    Lifecycle.Readable(es) && Workspace.AllInsertable(es)
  }

  /** The state after all rebuilds. */
  function Replayed(db: Db): Db {
    var b := Sessions.Books(db.events);
    db.(inbox := Inbox.Entries(db.events), runs := Lifecycle.Runs(db.events), intents := Inbox.Intents(db.events),
        workers := Registry.Workers(db.events), claims := Claims.Claims(db.events),
        artifacts := Workspace.Artifacts(db.events), sessions := b.sessions, members := b.members)
  }

  /** The state `rebuild_projection` leaves: runs, artifacts and sessions, up to a rebuild that raises. */
  function Projected(db: Db): Db {
    if !Lifecycle.Readable(db.events) then db
    else if !Workspace.AllInsertable(db.events) then db.(runs := Lifecycle.Runs(db.events))
    else
      var b := Sessions.Books(db.events);
      db.(runs := Lifecycle.Runs(db.events), artifacts := Workspace.Artifacts(db.events), sessions := b.sessions, members := b.members)
  }

  /** The state all rebuilds leave: complete, or as far as they came. */
  function Rebuilt(db: Db): Db {
    if Replayable(db.events) then Replayed(db) else Projected(db.(inbox := Inbox.Entries(db.events)))
  }

  /** `rebuild_projection` also rebuilds the artifact and session tables. */
  method RebuildProjection(db: Database) returns (ok: bool)
    modifies db`runs, db`artifacts, db`sessions, db`members
    ensures ok <==> Replayable(db.events)
    ensures db.View() == Projected(old(db.View()))
  {
    hide Lifecycle.Runs, Workspace.Artifacts, Sessions.Books, Lifecycle.Readable, Workspace.AllInsertable;
    ok := Lifecycle.RebuildRuns(db);
    if !ok { return; }
    ok := Workspace.RebuildArtifacts(db);
    if !ok { return; }
    Sessions.RebuildSessions(db);
  }

  /** The rebuilds of `replay_history`, in its order. */
  method RebuildAll(db: Database) returns (ok: bool)
    requires DistinctIds(db.events)
    modifies db`inbox, db`runs, db`intents, db`workers, db`claims, db`receipts, db`artifacts, db`sessions, db`members
    ensures ok <==> Replayable(db.events)
    ensures db.View() == Rebuilt(old(db.View()))
    ensures db.receipts == if ok then Receipts.RebuiltTable(db.events) else old(db.receipts)
  {
    hide Inbox.Entries, Lifecycle.Runs, Inbox.Intents, Registry.Workers, Claims.Claims, Workspace.Artifacts,
      Sessions.Books, Receipts.RebuiltTable,
      Lifecycle.Readable, Workspace.AllInsertable, DistinctIds;
    Inbox.RebuildInboxEntries(db);
    ok := RebuildProjection(db);
    if ok { ok := RebuildOthers(db); }
  }

  /** Those that come after `rebuild_projection`. */
  method RebuildOthers(db: Database) returns (ok: bool)
    requires DistinctIds(db.events)
    modifies db`intents, db`workers, db`claims, db`receipts, db`artifacts, db`sessions, db`members
    ensures ok <==> Workspace.AllInsertable(db.events)
    ensures db.intents == Inbox.Intents(db.events) && db.workers == Registry.Workers(db.events) && db.claims == Claims.Claims(db.events)
    ensures db.receipts == Receipts.RebuiltTable(db.events)
    ensures ok ==> db.artifacts == Workspace.Artifacts(db.events) && Sessions.Book(db.sessions, db.members) == Sessions.Books(db.events)
  {
    hide Inbox.Intents, Registry.Workers, Claims.Claims, Workspace.Artifacts, Sessions.Books, Receipts.RebuiltTable,
      Workspace.AllInsertable, DistinctIds;
    Inbox.RebuildIntents(db);
    Registry.RebuildWorkers(db);
    Claims.RebuildClaims(db);
    Receipts.RebuildReceipts(db);
    ok := Workspace.RebuildArtifacts(db);
    if !ok { return; }
    Sessions.RebuildSessions(db);
  }

  /** `replay_history`: every table rebuilt in turn, then an audit. */
  method ReplayHistory(db: Database, workspace: bool) returns (r: Outcome<AuditResult>)
    requires DistinctIds(db.events)
    modifies db`inbox, db`runs, db`intents, db`workers, db`claims, db`receipts, db`artifacts, db`sessions, db`members
    ensures if Replayable(db.events) then r.Ok? else r == Fail("REBUILD_FAILED")
    ensures db.View() == Rebuilt(old(db.View()))
    ensures db.receipts == if r.Ok? then Receipts.RebuiltTable(db.events) else old(db.receipts)
    ensures r.Ok? ==> (r.value.success <==> Clean(db.View(), db.receipts, workspace))
  {
    hide Replayable, Rebuilt, Receipts.RebuiltTable, Clean, DistinctIds, ValidChain, TablesClean, ReceiptsClean, MoreTablesClean;
    var ok := RebuildAll(db);
    if !ok { return Fail("REBUILD_FAILED"); }
    var audited := Audit(db, workspace);
    return Ok(audited);
  }

  // ---------------------------------------------------------------- files in

  datatype Restored = Restored(files: Files, error: Option<string>)

  /** One artifact restored: the archived file must be intact; an equal target file is left. */
  function RestoreOne(digest: Bytes -> string, archive: Files, target: Files, row: ArtifactRow): Restored {
    match NormalizeRelativePath(row.path)
    case PathError(code) => Restored(target, Some(code))
    case Path(p) =>
      var key := (row.intentId, p);
      if key !in archive then Restored(target, Some("MISSING_ARCHIVE_ARTIFACT"))
      else if |archive[key]| != row.size || digest(archive[key]) != row.sha256
      then Restored(target, Some("ARCHIVE_ARTIFACT_HASH_MISMATCH"))
      else if key in target
      then Restored(target, if target[key] != archive[key] then Some("TARGET_ARTIFACT_EXISTS") else None)
      else Restored(target[key := archive[key]], None)
  }

  /** The target after restoring the artifacts `keys`, up to the first error. */
  function Restore(digest: Bytes -> string, archive: Files, target: Files, t: ArtifactTable, keys: seq<string>): Restored {
    if keys == [] then Restored(target, None)
    else
      var before := Restore(digest, archive, target, t, keys[..|keys|-1]);
      if before.error.Some? || keys[|keys|-1] !in t then before
      else RestoreOne(digest, archive, before.files, t[keys[|keys|-1]])
  }

  lemma {:induction false} RestoreStops(
    digest: Bytes -> string, archive: Files, target: Files, t: ArtifactTable, keys: seq<string>, n: nat)
    requires n <= |keys| && Restore(digest, archive, target, t, keys[..n]).error.Some?
    ensures Restore(digest, archive, target, t, keys) == Restore(digest, archive, target, t, keys[..n])
  {
    hide RestoreOne;
    if n < |keys| {
      assert keys[..|keys|-1][..n] == keys[..n];
      RestoreStops(digest, archive, target, t, keys[..|keys|-1], n);
    } else {
      assert keys[..n] == keys;
    }
  }

  lemma RestoreStep(
    digest: Bytes -> string, archive: Files, target: Files, t: ArtifactTable, keys: seq<string>, n: nat, files: Files)
    requires n < |keys| && keys[n] in t && Restore(digest, archive, target, t, keys[..n]) == Restored(files, None)
    ensures Restore(digest, archive, target, t, keys[..n+1]) == RestoreOne(digest, archive, files, t[keys[n]])
  {
    hide RestoreOne;
    assert keys[..n+1][..n] == keys[..n];
  }

  lemma RestoreNothing(digest: Bytes -> string, archive: Files, target: Files, t: ArtifactTable)
    ensures Restore(digest, archive, target, t, []) == Restored(target, None)
  {
  }

  /** `_restore_workspace_files`: what was restored before an error stays. */
  method RestoreWorkspaceFiles(db: Database, archive: Files) returns (error: Option<string>)
    modifies db`files
    ensures Restored(db.files, error) ==
      Restore(db.cfg.digest, archive, old(db.files), db.artifacts, SortedKeys(db.artifacts.Keys))
  {
    hide RestoreOne, Restore;
    var t, keys := db.artifacts, SortedKeys(db.artifacts.Keys);
    RestoreNothing(db.cfg.digest, archive, db.files, t);
    for n := 0 to |keys|
      invariant Restore(db.cfg.digest, archive, old(db.files), t, keys[..n]) == Restored(db.files, None)
    {
      RestoreStep(db.cfg.digest, archive, old(db.files), t, keys, n, db.files);
      var restored := RestoreOne(db.cfg.digest, archive, db.files, t[keys[n]]);
      db.files := restored.files;
      if restored.error.Some? {
        RestoreStops(db.cfg.digest, archive, old(db.files), t, keys, n + 1);
        return restored.error;
      }
    }
    assert keys[..|keys|] == keys;
    return None;
  }

  // ---------------------------------------------------------------- import

  /** `dict.get`: a missing key is None. */
  function Get(m: map<string, Json>, k: string): Json {
    if k in m then m[k] else Null
  }

  /** `_verify_manifest`. */
  function VerifyManifest(m: map<string, Json>, docs: seq<map<string, Json>>): Option<string> {
    if Workspace.Integer(m, "event_count") != Some(|docs|) then Some("EVENT_COUNT_MISMATCH")
    else if docs == [] then None
    else if Get(m, "first_event_id") != Get(docs[0], "id") then Some("FIRST_EVENT_ID_MISMATCH")
    else if Get(m, "last_event_id") != Get(docs[|docs|-1], "id") then Some("LAST_EVENT_ID_MISMATCH")
    else None
  }

  /** Everything the import checks before it touches the target. */
  function Unpack(seals: Seals, folder: Folder): Outcome<(map<string, Json>, seq<map<string, Json>>)> {
    match Loads(folder.manifest)
    case None => Fail("INVALID_MANIFEST")
    case Some(Obj(m)) =>
      if "ledger_events_sha256" !in m then Fail("KEY_ERROR")
      else if m["ledger_events_sha256"] != Str(seals.text(folder.ledger)) then Fail("LEDGER_SHA_MISMATCH")
      else (
        match ParseLines(SplitLines(folder.ledger))
        case Fail(code) => Fail(code)
        case Ok(docs) =>
          var wrong := VerifyManifest(m, docs);
          if wrong.Some? then Fail(wrong.value)
          else if Get(m, "workspace_sha256") != Str(seals.tree(folder.workspace)) then Fail("WORKSPACE_SHA_MISMATCH")
          else Ok((m, docs)))
    case Some(_) => Fail("INVALID_MANIFEST")
  }

  method ReadArchive(seals: Seals, folder: Folder) returns (r: Outcome<(map<string, Json>, seq<map<string, Json>>)>)
    ensures r == Unpack(seals, folder)
  {
    hide Loads, ParseLines, SplitLines, VerifyManifest;
    var manifest := Loads(folder.manifest);
    if manifest.None? || !manifest.value.Obj? { return Fail("INVALID_MANIFEST"); }
    var m := manifest.value.fields;
    if "ledger_events_sha256" !in m { return Fail("KEY_ERROR"); }
    if m["ledger_events_sha256"] != Str(seals.text(folder.ledger)) { return Fail("LEDGER_SHA_MISMATCH"); }
    var docs := ReadLines(SplitLines(folder.ledger));
    if docs.Fail? { return Fail(docs.code); }
    var wrong := VerifyManifest(m, docs.value);
    if wrong.Some? { return Fail(wrong.value); }
    if Get(m, "workspace_sha256") != Str(seals.tree(folder.workspace)) { return Fail("WORKSPACE_SHA_MISMATCH"); }
    return Ok((m, docs.value));
  }

  /** The keys the result is made of. */
  predicate Complete(m: map<string, Json>) {
    "created_at" in m && "first_event_id" in m && "last_event_id" in m && "event_count" in m
  }

  /** The files after the restore. */
  function Landed(db: Db, folder: Folder, es: History): Restored {
    Restore(db.cfg.digest, folder.workspace, db.files, Workspace.Artifacts(es), SortedKeys(Workspace.Artifacts(es).Keys))
  }

  /** The state an import leaves once it has come to the files: replayed, with what was restored. */
  function AfterImport(db: Db, folder: Folder, es: History): Db {
    Replayed(db.(events := es, files := Landed(db, folder, es).files))
  }

  /** The rows of the archive can be read and inserted. */
  predicate Insertable(db: Db, seals: Seals, folder: Folder) {
    Unpack(seals, folder).Ok? && db.events == [] && DecodeRows(Unpack(seals, folder).value.1).Ok?
  }

  /** The state an import leaves, whatever stops it. */
  function Imported(db: Db, seals: Seals, folder: Folder): Db {
    if !Insertable(db, seals, folder) then db
    else
      var es := DecodeRows(Unpack(seals, folder).value.1).value;
      if !ValidChain(db.cfg.hash, es) then db.(events := es)
      else if !Replayable(es) then Rebuilt(db.(events := es))
      else AfterImport(db, folder, es)
  }

  /** How an import ends. */
  ghost function Importing(db: Db, seals: Seals, folder: Folder): Outcome<map<string, Json>> {
    match Unpack(seals, folder)
    case Fail(code) => Fail(code)
    case Ok((manifest, docs)) =>
      if db.events != [] then Fail("LEDGER_NOT_EMPTY")
      else
        match DecodeRows(docs)
        case Fail(code) => Fail(code)
        case Ok(es) =>
          if !ValidChain(db.cfg.hash, es) then Fail("BROKEN_HASH_CHAIN")
          else Landing(db, folder, manifest, es)
  }

  /** How it ends once the chain is found valid: rebuilds, files, audit, result. */
  ghost function Landing(db: Db, folder: Folder, manifest: map<string, Json>, es: History): Outcome<map<string, Json>> {
    if !Replayable(es) then Fail("REBUILD_FAILED")
    else if Landed(db, folder, es).error.Some? then Fail(Landed(db, folder, es).error.value)
    else if !Clean(AfterImport(db, folder, es), Receipts.RebuiltTable(es), true) then Fail("AUDIT_FAILED")
    else if !Complete(manifest) then Fail("KEY_ERROR")
    else Ok(manifest)
  }

  lemma {:induction false} DecodedDistinct(docs: seq<map<string, Json>>)
    requires DecodeRows(docs).Ok?
    ensures DistinctIds(DecodeRows(docs).value)
  {
    hide DecodeRow;
    if docs != [] {
      DecodedDistinct(docs[..|docs|-1]);
      var es := DecodeRows(docs).value;
      assert es[..|es|-1] == DecodeRows(docs[..|docs|-1]).value;
      DistinctSnoc(es);
    }
  }

  /** `import_archive`: how it ends and the state it leaves, whichever step stops it; refused without a
      trace until the rows are in. */
  method ImportArchive(db: Database, seals: Seals, folder: Folder) returns (r: Outcome<map<string, Json>>)
    modifies db`events, db`files, db`inbox, db`runs, db`intents, db`workers, db`claims, db`receipts, db`artifacts, db`sessions, db`members
    ensures r == Importing(old(db.View()), seals, folder)
    ensures db.View() == Imported(old(db.View()), seals, folder)
    ensures r.Ok? ==> db.receipts == Receipts.RebuiltTable(db.events)
  {
    hide Unpack, DecodeRows, Replayable, Replayed, Rebuilt, Receipts.RebuiltTable, Clean, DistinctIds, ValidChain,
      Workspace.Artifacts, Restore, Complete;
    var unpacked := ReadArchive(seals, folder);
    if unpacked.Fail? { return Fail(unpacked.code); }
    if db.events != [] { return Fail("LEDGER_NOT_EMPTY"); }
    var rows := InsertRows(unpacked.value.1);
    if rows.Fail? { return Fail(rows.code); }
    DecodedDistinct(unpacked.value.1);
    db.events := rows.value;
    var chain := ValidateChain(db.cfg.hash, db.events);
    if !chain.Valid? { return Fail("BROKEN_HASH_CHAIN"); }
    r := Land(db, folder, unpacked.value.0, old(db.View()));
  }

  /** Replaying again changes nothing, and files do not matter to it. */
  lemma ReplayTwice(db: Db, files: Files)
    ensures var d := Replayed(db);
      && d.events == db.events && d.files == db.files && d.cfg == db.cfg && d.artifacts == Workspace.Artifacts(db.events)
      && d.(files := files) == Replayed(db.(files := files)) == Replayed(d.(files := files))
  {
    hide Inbox.Entries, Lifecycle.Runs, Inbox.Intents, Registry.Workers, Claims.Claims, Workspace.Artifacts, Sessions.Books;
  }

  lemma RebuiltAll(db: Db)
    requires Replayable(db.events)
    ensures Rebuilt(db) == Replayed(db)
  {
    hide Replayable, Replayed, Projected;
  }

  /** Replay, restore the files, replay again and look at the audit. */
  method Land(db: Database, folder: Folder, manifest: map<string, Json>, ghost before: Db) returns (r: Outcome<map<string, Json>>)
    requires DistinctIds(db.events) && db.View() == before.(events := db.events)
    modifies db`files, db`inbox, db`runs, db`intents, db`workers, db`claims, db`receipts, db`artifacts, db`sessions, db`members
    ensures r == Landing(before, folder, manifest, db.events)
    ensures db.View() ==
      if Replayable(db.events) then AfterImport(before, folder, db.events) else Rebuilt(before.(events := db.events))
    ensures r.Ok? ==> db.receipts == Receipts.RebuiltTable(db.events)
  {
    hide Replayable, Replayed, Rebuilt, Receipts.RebuiltTable, Clean, DistinctIds, Restore, Workspace.Artifacts, Complete;
    ghost var start := db.View();
    var first := ReplayHistory(db, false);
    if first.Fail? { return Fail(first.code); }
    RebuiltAll(start);
    ghost var replayed := db.View();
    var error := RestoreWorkspaceFiles(db, folder.workspace);
    ReplayTwice(start, db.files);
    assert db.View() == replayed.(files := db.files);
    if error.Some? { return Fail(error.value); }
    ghost var restored := db.View();
    var second := ReplayHistory(db, true);
    RebuiltAll(restored);
    if !second.value.success { return Fail("AUDIT_FAILED"); }
    if !Complete(manifest) { return Fail("KEY_ERROR"); }
    return Ok(manifest);
  }
}
