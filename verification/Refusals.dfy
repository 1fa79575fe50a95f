/** Why an export or an import is refused: the first line, row or file that is wrong decides, and each step speaks only
    when those before it are content. */
module Refusals {
  import opened Strings
  import opened Json
  import opened JsonText
  import opened Ledger
  import opened State
  import opened Paths
  import opened Jsonl
  import opened Auditor
  import opened Archive
  import opened Acceptance
  import Workspace
  import Receipts

  // ---------------------------------------------------------------- lines

  /** The line is no JSON, or no object. */
  predicate BadLine(line: string, code: string) {
    match Loads(line)
    case None => code == "JSON_DECODE_ERROR"
    case Some(j) => !j.Obj? && code == "INVALID_LEDGER_EVENT"
  }

  /** The first line that is not an object is refused. */
  ghost predicate LinesRefused(lines: seq<string>, code: string) {
    exists n: nat, docs :: n < |lines| && Reads(lines[..n], docs) && BadLine(lines[n], code)
  }

  lemma {:induction false} LinesFail(lines: seq<string>, code: string)
    ensures ParseLines(lines) == Fail(code) <==> LinesRefused(lines, code)
  {
    hide Loads, Reads;
    if lines != [] {
      var front, last := lines[..|lines|-1], |lines| - 1;
      LinesFail(front, code);
      forall n: nat | n <= last ensures lines[..n] == front[..n] { }
      assert front[..last] == front;
      forall docs { ParsedIs(front, docs); }
    }
  }

  // ---------------------------------------------------------------- rows

  const NEEDED := {"id", "parent_event_hash", "event_type", "worker_id", "payload_json", "event_hash", "created_at"}
  const COLUMNS := NEEDED + {"operation_id", "artifact_hash"}

  /** A column that must hold something does not. */
  predicate Gap(m: map<string, Json>) {
    exists k :: k in NEEDED && (k !in m || m[k].Null?)
  }

  /** A column holds what a column of texts cannot keep. */
  predicate Misfit(m: map<string, Json>) {
    exists k :: k in COLUMNS && k in m && !m[k].Null? && Kept(m[k]).None?
  }

  /** The document is no row, or one whose id is taken. */
  predicate BadRow(es: History, m: map<string, Json>, code: string) {
    if Gap(m) then code == "INVALID_LEDGER_EVENT"
    else if Misfit(m) then code == "COLUMN_TYPE"
    else code == "DUPLICATE_ID" && IdOf(es, Kept(m["id"]).value)
  }

  lemma RowIs(m: map<string, Json>)
    ensures Gap(m) <==> DecodeRow(m) == Fail("INVALID_LEDGER_EVENT")
    ensures !Gap(m) && Misfit(m) <==> DecodeRow(m) == Fail("COLUMN_TYPE")
    ensures !Gap(m) && !Misfit(m) <==> DecodeRow(m).Ok?
    ensures DecodeRow(m).Ok? ==> "id" in m && Kept(m["id"]) == Some(DecodeRow(m).value.id)
  {
    hide Kept, Column;
    assert forall k :: k in REQUIRED <==> k in NEEDED;
    assert Gap(m) <==> MissingColumn(m);
    if !Gap(m) {
      assert forall k :: k in NEEDED ==> k in m && !m[k].Null?;
      var texts := forall k :: k in NEEDED ==> TextColumn(m, k);
      assert Misfit(m) <==> !(texts && NullableColumn(m, "operation_id") && NullableColumn(m, "artifact_hash"));
    }
  }

  /** The first document that is no row of its own is refused. */
  ghost predicate RowsRefused(docs: seq<map<string, Json>>, code: string) {
    exists n: nat, es :: n < |docs| && Rows(docs[..n], es) && BadRow(es, docs[n], code)
  }

  lemma {:induction false} RowsFail(docs: seq<map<string, Json>>, code: string)
    ensures DecodeRows(docs) == Fail(code) <==> RowsRefused(docs, code)
  {
    hide DecodeRow, Rows, Gap, Misfit, IdOf, Kept;
    if docs != [] {
      var front, last := docs[..|docs|-1], |docs| - 1;
      RowsFail(front, code);
      forall n: nat | n <= last ensures docs[..n] == front[..n] { }
      assert front[..last] == front;
      forall es { DecodedIs(front, es); }
      RowIs(docs[last]);
    }
  }

  // ---------------------------------------------------------------- files

  /** Why a file is not copied: its path, its absence, its size or its digest, or its place is taken. */
  ghost predicate BadCopy(digest: Bytes -> string, source: Files, t: ArtifactTable, before: seq<string>, row: ArtifactRow, code: string) {
    match NormalizeRelativePath(row.path)
    case PathError(path) => code == path
    case Path(p) =>
      var key := (row.intentId, p);
      if key !in source then code == "MISSING_ARTIFACT_FILE"
      else if |source[key]| != row.size then code == "SIZE_MISMATCH"
      else if digest(source[key]) != row.sha256 then code == "HASH_MISMATCH"
      else code == "FILE_EXISTS" && Sent(digest, source, t, before, key)
  }

  /** The first artifact whose file is not whole, or not alone at its place, stops the copy. */
  ghost predicate CopyRefused(digest: Bytes -> string, source: Files, t: ArtifactTable, keys: seq<string>, code: string) {
    exists n: nat :: n < |keys| && keys[n] in t && AllWhole(digest, source, t, keys[..n]) && Apart(digest, source, t, keys[..n])
      && BadCopy(digest, source, t, keys[..n], t[keys[n]], code)
  }

  lemma CopyRefusedNext(digest: Bytes -> string, source: Files, t: ArtifactTable, keys: seq<string>, code: string)
    requires keys != []
    ensures var front, a := keys[..|keys|-1], keys[|keys|-1];
      CopyRefused(digest, source, t, keys, code) <==>
        || CopyRefused(digest, source, t, front, code)
        || (a in t && AllWhole(digest, source, t, front) && Apart(digest, source, t, front) && BadCopy(digest, source, t, front, t[a], code))
  {
    hide BadCopy, AllWhole, Apart;
    var front, last := keys[..|keys|-1], |keys| - 1;
    forall n: nat | n <= last ensures keys[..n] == front[..n] { }
    assert front[..last] == front;
  }

  lemma {:induction false} CopyFails(digest: Bytes -> string, source: Files, t: ArtifactTable, keys: seq<string>, code: string)
    requires forall j, k :: 0 <= j < k < |keys| ==> keys[j] != keys[k]
    ensures Copy(digest, source, t, keys) == Fail(code) <==> CopyRefused(digest, source, t, keys, code)
  {
    if keys != [] {
      hide Copy, CopyOne, CopyRefused, BadCopy, AllWhole, Apart, Exactly;
      var front, a := keys[..|keys|-1], keys[|keys|-1];
      forall j, k | 0 <= j < k < |front| ensures front[j] != front[k] { assert front[j] == keys[j] && front[k] == keys[k]; }
      CopyFails(digest, source, t, front, code);
      CopyRefusedNext(digest, source, t, keys, code);
      CopyIs(digest, source, t, front);
      CopyNext(digest, source, t, keys);
      if Copy(digest, source, t, front).Ok? && a in t {
        CopyOneFails(digest, source, t, front, Copy(digest, source, t, front).value, t[a], code);
      }
    }
  }

  lemma CopyOneFails(
    digest: Bytes -> string, source: Files, t: ArtifactTable, before: seq<string>, to: Files, row: ArtifactRow, code: string)
    requires Exactly(digest, source, t, before, to)
    ensures CopyOne(digest, source, to, row) == Fail(code) <==> BadCopy(digest, source, t, before, row, code)
  {
    hide NormalizeRelativePath, Sent;
  }

  /** Why a file is not restored. */
  predicate BadRestore(digest: Bytes -> string, archive: Files, target: Files, row: ArtifactRow, code: string) {
    match NormalizeRelativePath(row.path)
    case PathError(path) => code == path
    case Path(p) =>
      var key := (row.intentId, p);
      if key !in archive then code == "MISSING_ARCHIVE_ARTIFACT"
      else if |archive[key]| != row.size || digest(archive[key]) != row.sha256 then code == "ARCHIVE_ARTIFACT_HASH_MISMATCH"
      else code == "TARGET_ARTIFACT_EXISTS" && key in target && target[key] != archive[key]
  }

  /** The first artifact that is not welcome stops the restore. */
  ghost predicate RestoreRefused(
    digest: Bytes -> string, archive: Files, target: Files, t: ArtifactTable, keys: seq<string>, code: string)
  {
    exists n: nat :: n < |keys| && keys[n] in t && Welcome(digest, archive, target, t, keys[..n])
      && BadRestore(digest, archive, target, t[keys[n]], code)
  }

  lemma RestoreRefusedNext(
    digest: Bytes -> string, archive: Files, target: Files, t: ArtifactTable, keys: seq<string>, code: string)
    requires keys != []
    ensures var front, a := keys[..|keys|-1], keys[|keys|-1];
      RestoreRefused(digest, archive, target, t, keys, code) <==>
        || RestoreRefused(digest, archive, target, t, front, code)
        || (a in t && Welcome(digest, archive, target, t, front) && BadRestore(digest, archive, target, t[a], code))
  {
    hide BadRestore, Welcome;
    var front, last := keys[..|keys|-1], |keys| - 1;
    forall n: nat | n <= last ensures keys[..n] == front[..n] { }
    assert front[..last] == front;
  }

  lemma {:induction false} RestoreFails(
    digest: Bytes -> string, archive: Files, target: Files, t: ArtifactTable, keys: seq<string>, code: string)
    ensures Restore(digest, archive, target, t, keys).error == Some(code) <==> RestoreRefused(digest, archive, target, t, keys, code)
  {
    if keys != [] {
      hide Restore, RestoreOne, RestoreRefused, BadRestore, Welcome, Acceptance.Joined;
      var front, a := keys[..|keys|-1], keys[|keys|-1];
      RestoreFails(digest, archive, target, t, front, code);
      RestoreRefusedNext(digest, archive, target, t, keys, code);
      RestoreIs(digest, archive, target, t, front);
      RestoreNext(digest, archive, target, t, keys);
      var before := Restore(digest, archive, target, t, front);
      if before.error.None? && a in t {
        RestoreOneFails(digest, archive, target, t, front, before.files, t[a], code);
      }
    }
  }

  lemma RestoreOneFails(
    digest: Bytes -> string, archive: Files, target: Files, t: ArtifactTable, before: seq<string>, files: Files, row: ArtifactRow, code: string)
    requires Acceptance.Joined(digest, archive, target, t, before, files)
    ensures RestoreOne(digest, archive, files, row).error == Some(code) <==> BadRestore(digest, archive, target, row, code)
  {
    hide NormalizeRelativePath, Sent;
  }

  // ---------------------------------------------------------------- the manifest

  /** The manifest does not count or bound the rows. */
  predicate BadBounds(m: map<string, Json>, docs: seq<map<string, Json>>, code: string) {
    if Workspace.Integer(m, "event_count") != Some(|docs|) then code == "EVENT_COUNT_MISMATCH"
    else if docs != [] && Get(m, "first_event_id") != Get(docs[0], "id") then code == "FIRST_EVENT_ID_MISMATCH"
    else docs != [] && Get(m, "last_event_id") != Get(docs[|docs|-1], "id") && code == "LAST_EVENT_ID_MISMATCH"
  }

  /** What stops an import before it looks at the target. */
  ghost predicate Unsealed(seals: Seals, folder: Folder, code: string) {
    match Loads(folder.manifest)
    case Some(Obj(m)) =>
      if "ledger_events_sha256" !in m then code == "KEY_ERROR"
      else if m["ledger_events_sha256"] != Str(seals.text(folder.ledger)) then code == "LEDGER_SHA_MISMATCH"
      else
        || LinesRefused(SplitLines(folder.ledger), code)
        || exists docs :: Reads(SplitLines(folder.ledger), docs) &&
             (BadBounds(m, docs, code)
              || (Bounds(m, docs) && Get(m, "workspace_sha256") != Str(seals.tree(folder.workspace)) && code == "WORKSPACE_SHA_MISMATCH"))
    case _ => code == "INVALID_MANIFEST"
  }

  lemma UnpackFails(seals: Seals, folder: Folder, code: string)
    ensures Unpack(seals, folder) == Fail(code) <==> Unsealed(seals, folder, code)
  {
    hide Loads, SplitLines, ParseLines, Reads, LinesRefused, Workspace.Integer;
    var lines := SplitLines(folder.ledger);
    LinesFail(lines, code);
    forall docs { ParsedIs(lines, docs); }
  }

  // ---------------------------------------------------------------- export and import

  /** An export is refused by the first of: its directory, an empty ledger, its files. */
  lemma ExportStops(db: Db, seals: Seals, createdAt: string, free: bool, code: string)
    ensures Export(db, seals, createdAt, free) == Fail(code) <==>
      if !free then code == "ARCHIVE_EXISTS"
      else if db.events == [] then code == "EMPTY_LEDGER"
      else CopyRefused(db.cfg.digest, db.files, db.artifacts, SortedKeys(db.artifacts.Keys), code)
  {
    hide Copy, CopyRefused, LedgerJsonl, Dumps, Manifest;
    KeysDiffer(SortedKeys(db.artifacts.Keys));
    CopyFails(db.cfg.digest, db.files, db.artifacts, SortedKeys(db.artifacts.Keys), code);
  }

  /** What stops an import once its rows are in. */
  ghost predicate Unsettled(db: Db, folder: Folder, m: map<string, Json>, es: History, code: string) {
    var t := Workspace.Artifacts(es);
    if !ValidChain(db.cfg.hash, es) then code == "BROKEN_HASH_CHAIN"
    else if !Replayable(es) then code == "REBUILD_FAILED"
    else
      || RestoreRefused(db.cfg.digest, folder.workspace, db.files, t, SortedKeys(t.Keys), code)
      || (Welcome(db.cfg.digest, folder.workspace, db.files, t, SortedKeys(t.Keys))
          && if !Clean(AfterImport(db, folder, es), Receipts.RebuiltTable(es), true) then code == "AUDIT_FAILED"
             else !Complete(m) && code == "KEY_ERROR")
  }

  lemma SettlingFails(db: Db, folder: Folder, m: map<string, Json>, es: History, code: string)
    requires ValidChain(db.cfg.hash, es)
    ensures Landing(db, folder, m, es) == Fail(code) <==> Unsettled(db, folder, m, es, code)
  {
    hide Replayable, Welcome, RestoreRefused, Clean, Complete, Restore, ValidChain, Workspace.Artifacts, AfterImport;
    var t := Workspace.Artifacts(es);
    RestoreIs(db.cfg.digest, folder.workspace, db.files, t, SortedKeys(t.Keys));
    RestoreFails(db.cfg.digest, folder.workspace, db.files, t, SortedKeys(t.Keys), code);
  }

  /** What stops an import. */
  ghost predicate Stops(db: Db, seals: Seals, folder: Folder, code: string) {
    || Unsealed(seals, folder, code)
    || exists m, docs :: Vouches(seals, folder, m) && Reads(SplitLines(folder.ledger), docs) && Bounds(m, docs) &&
         if db.events != [] then code == "LEDGER_NOT_EMPTY"
         else RowsRefused(docs, code) || exists es :: Rows(docs, es) && Unsettled(db, folder, m, es, code)
  }

  /** An import fails with exactly the code of the first step that has an objection. */
  lemma ImportStops(db: Db, seals: Seals, folder: Folder, code: string)
    ensures Importing(db, seals, folder) == Fail(code) <==> Stops(db, seals, folder, code)
  {
    hide Unsealed, Vouches, Reads, Bounds, Rows, RowsRefused, Unsettled, Unpack, DecodeRows, Landing, ValidChain, SplitLines;
    UnpackFails(seals, folder, code);
    forall m, docs { UnpackIs(seals, folder, m, docs); }
    if Unpack(seals, folder).Ok? {
      var (m, docs) := Unpack(seals, folder).value;
      RowsFail(docs, code);
      forall es { DecodedIs(docs, es); }
      if DecodeRows(docs).Ok? { Settling(db, folder, m, DecodeRows(docs).value, code); }
    }
  }

  lemma Settling(db: Db, folder: Folder, m: map<string, Json>, es: History, code: string)
    ensures (if !ValidChain(db.cfg.hash, es) then code == "BROKEN_HASH_CHAIN" else Landing(db, folder, m, es) == Fail(code))
       <==> Unsettled(db, folder, m, es, code)
  {
    hide Landing, ValidChain, Replayable, RestoreRefused, Welcome, Clean, Complete;
    if ValidChain(db.cfg.hash, es) { SettlingFails(db, folder, m, es, code); }
  }
}
