/** What export and import accept, and what they leave, told from the archive itself: which digests must match, which
    rows and files must be there, and that an archive altered under its manifest is not imported. */
module Acceptance {
  import opened Strings
  import opened Json
  import opened JsonText
  import opened Ledger
  import opened State
  import opened Paths
  import opened Jsonl
  import opened Auditor
  import opened Archive
  import opened RoundTrip
  import Workspace
  import Receipts

  // ---------------------------------------------------------------- the ledger text

  /** Every line is the text of one JSON object. */
  predicate Reads(lines: seq<string>, docs: seq<map<string, Json>>) {
    |docs| == |lines| && forall k :: 0 <= k < |lines| ==> Loads(lines[k]) == Some(Obj(docs[k]))
  }

  lemma {:induction false} ParsedIs(lines: seq<string>, docs: seq<map<string, Json>>)
    ensures ParseLines(lines) == Ok(docs) <==> Reads(lines, docs)
  {
    hide Loads;
    if lines == [] {
    } else {
      var front, n := lines[..|lines|-1], |lines| - 1;
      forall k | 0 <= k < n ensures front[k] == lines[k] { }
      if docs != [] {
        ParsedIs(front, docs[..|docs|-1]);
        if Reads(lines, docs) { assert docs == docs[..n] + [docs[n]]; }
      }
      if ParseLines(lines) == Ok(docs) {
        var some := ParseLines(front).value;
        ParsedIs(front, some);
        assert docs[..n] == some;
      }
    }
  }

  /** Every document is one row, and no id is there twice. */
  ghost predicate Rows(docs: seq<map<string, Json>>, es: History) {
    |es| == |docs| && (forall k :: 0 <= k < |es| ==> DecodeRow(docs[k]) == Ok(es[k])) && DistinctIds(es)
  }

  lemma {:induction false} DecodedIs(docs: seq<map<string, Json>>, es: History)
    ensures DecodeRows(docs) == Ok(es) <==> Rows(docs, es)
  {
    hide DecodeRow, DistinctIds, IdOf;
    if docs == [] {
      NoRows(es);
    } else {
      var front, n := docs[..|docs|-1], |docs| - 1;
      forall k | 0 <= k < n ensures front[k] == docs[k] { }
      if es != [] {
        DecodedIs(front, es[..|es|-1]);
        DistinctSnoc(es);
        if Rows(docs, es) { Unsnoc(es); }
      }
      if DecodeRows(docs) == Ok(es) {
        var some := DecodeRows(front).value;
        DecodedIs(front, some);
        assert es[..n] == some;
      }
    }
  }

  lemma NoRows(es: History)
    ensures es == [] ==> DistinctIds(es)
  {
  }

  // ---------------------------------------------------------------- the manifest

  /** The manifest is an object that names the digests of the ledger text and of the files. */
  ghost predicate Vouches(seals: Seals, folder: Folder, m: map<string, Json>) {
    && Loads(folder.manifest) == Some(Obj(m))
    && "ledger_events_sha256" in m && m["ledger_events_sha256"] == Str(seals.text(folder.ledger))
    && "workspace_sha256" in m && m["workspace_sha256"] == Str(seals.tree(folder.workspace))
  }

  /** It counts the rows and names the first and the last. */
  predicate Bounds(m: map<string, Json>, docs: seq<map<string, Json>>) {
    && Workspace.Integer(m, "event_count") == Some(|docs|)
    && (docs != [] ==> Get(m, "first_event_id") == Get(docs[0], "id") && Get(m, "last_event_id") == Get(docs[|docs|-1], "id"))
  }

  /** What may be inserted: both digests match, every line is an object, and the manifest counts and bounds them. */
  lemma UnpackIs(seals: Seals, folder: Folder, m: map<string, Json>, docs: seq<map<string, Json>>)
    ensures Unpack(seals, folder) == Ok((m, docs)) <==>
      Vouches(seals, folder, m) && Reads(SplitLines(folder.ledger), docs) && Bounds(m, docs)
  {
    hide Loads, SplitLines, ParseLines, Reads, Workspace.Integer;
    ParsedIs(SplitLines(folder.ledger), docs);
  }

  // ---------------------------------------------------------------- the files

  /** The row's file is at `key`, whole: of the recorded size and digest. */
  predicate Whole(digest: Bytes -> string, files: Files, row: ArtifactRow, key: (string, string)) {
    && NormalizeRelativePath(row.path) == Path(key.1) && row.intentId == key.0
    && key in files && |files[key]| == row.size && digest(files[key]) == row.sha256
  }

  /** Some artifact of `keys` is at `key`, whole. */
  ghost predicate Sent(digest: Bytes -> string, files: Files, t: ArtifactTable, keys: seq<string>, key: (string, string)) {
    exists a :: a in keys && a in t && Whole(digest, files, t[a], key)
  }

  /** Every artifact of `keys` is somewhere, whole. */
  ghost predicate AllWhole(digest: Bytes -> string, files: Files, t: ArtifactTable, keys: seq<string>) {
    forall a :: a in keys && a in t ==> exists key :: Whole(digest, files, t[a], key)
  }

  /** No two of them are at the same place. */
  ghost predicate Apart(digest: Bytes -> string, files: Files, t: ArtifactTable, keys: seq<string>) {
    forall a, b, key :: a in keys && b in keys && a in t && b in t && Whole(digest, files, t[a], key) && Whole(digest, files, t[b], key)
      ==> a == b
  }

  lemma CopyOneIs(digest: Bytes -> string, source: Files, to: Files, row: ArtifactRow)
    ensures CopyOne(digest, source, to, row).Ok? <==> exists key :: Whole(digest, source, row, key) && key !in to
    ensures forall key :: Whole(digest, source, row, key) && key !in to ==> CopyOne(digest, source, to, row) == Ok(to[key := source[key]])
  {
    hide NormalizeRelativePath;
    if NormalizeRelativePath(row.path).Path? {
      assert CopyOne(digest, source, to, row).Ok? ==> Whole(digest, source, row, (row.intentId, NormalizeRelativePath(row.path).normal));
    }
  }

  lemma WholeOnce(digest: Bytes -> string, files: Files, row: ArtifactRow, j: (string, string), k: (string, string))
    requires Whole(digest, files, row, j) && Whole(digest, files, row, k)
    ensures j == k
  {
    hide NormalizeRelativePath;
  }

  /** Exactly the files of the artifacts `keys`, as they are in `source`. */
  ghost predicate Exactly(digest: Bytes -> string, source: Files, t: ArtifactTable, keys: seq<string>, to: Files) {
    && (forall key :: key in to <==> Sent(digest, source, t, keys, key))
    && forall key :: key in to ==> key in source && to[key] == source[key]
  }

  /** The files copied: all artifacts must be whole and at places of their own; then exactly their files are copied. */
  lemma {:induction false} CopyIs(digest: Bytes -> string, source: Files, t: ArtifactTable, keys: seq<string>)
    requires forall j, k :: 0 <= j < k < |keys| ==> keys[j] != keys[k]
    ensures Copy(digest, source, t, keys).Ok? <==> AllWhole(digest, source, t, keys) && Apart(digest, source, t, keys)
    ensures Copy(digest, source, t, keys).Ok? ==> Exactly(digest, source, t, keys, Copy(digest, source, t, keys).value)
  {
    if keys == [] {
    } else {
      var front, a := keys[..|keys|-1], keys[|keys|-1];
      forall j, k | 0 <= j < k < |front| ensures front[j] != front[k] { assert front[j] == keys[j] && front[k] == keys[k]; }
      assert a !in front && keys == front + [a];
      CopyIs(digest, source, t, front);
      CopyNext(digest, source, t, keys);
      if a in t {
        CopyLast(digest, source, t, front, a);
        if Copy(digest, source, t, front).Ok? { CopyOneIs(digest, source, Copy(digest, source, t, front).value, t[a]); }
      } else {
        CopySkip(digest, source, t, front, a);
      }
      hide *;
    }
  }

  lemma CopyNext(digest: Bytes -> string, source: Files, t: ArtifactTable, keys: seq<string>)
    requires keys != []
    ensures var front, a := keys[..|keys|-1], keys[|keys|-1]; var before := Copy(digest, source, t, front);
      Copy(digest, source, t, keys) ==
        if before.Fail? || a !in t then before else CopyOne(digest, source, before.value, t[a])
  {
    hide CopyOne;
  }

  lemma CopyLast(digest: Bytes -> string, source: Files, t: ArtifactTable, front: seq<string>, a: string)
    requires a in t && a !in front
    ensures AllWhole(digest, source, t, front + [a]) && Apart(digest, source, t, front + [a]) ==>
      AllWhole(digest, source, t, front) && Apart(digest, source, t, front)
    ensures AllWhole(digest, source, t, front) && Apart(digest, source, t, front) ==>
      forall to :: Exactly(digest, source, t, front, to) ==>
        && (AllWhole(digest, source, t, front + [a]) && Apart(digest, source, t, front + [a]) <==>
              exists key :: Whole(digest, source, t[a], key) && key !in to)
        && forall key :: Whole(digest, source, t[a], key) && key !in to ==>
             key in source && Exactly(digest, source, t, front + [a], to[key := source[key]])
  {
    hide Whole;
    assert forall x :: x in front + [a] <==> x in front || x == a;
    if AllWhole(digest, source, t, front) && Apart(digest, source, t, front) {
      forall to | Exactly(digest, source, t, front, to)
        ensures AllWhole(digest, source, t, front + [a]) && Apart(digest, source, t, front + [a]) <==>
          exists key :: Whole(digest, source, t[a], key) && key !in to
        ensures forall key :: Whole(digest, source, t[a], key) && key !in to ==>
          key in source && Exactly(digest, source, t, front + [a], to[key := source[key]])
      {
        CopyLastTo(digest, source, t, front, a, to);
        forall key | Whole(digest, source, t[a], key) && key !in to { CopyMore(digest, source, t, front, a, to, key); }
      }
    }
  }

  lemma CopyLastTo(digest: Bytes -> string, source: Files, t: ArtifactTable, front: seq<string>, a: string, to: Files)
    requires a in t && a !in front && AllWhole(digest, source, t, front) && Apart(digest, source, t, front)
    requires Exactly(digest, source, t, front, to)
    ensures AllWhole(digest, source, t, front + [a]) && Apart(digest, source, t, front + [a]) <==>
      exists key :: Whole(digest, source, t[a], key) && key !in to
  {
    hide Whole;
    var keys := front + [a];
    assert forall x :: x in keys <==> x in front || x == a;
    if AllWhole(digest, source, t, keys) && Apart(digest, source, t, keys) {
      var key :| Whole(digest, source, t[a], key);
      assert !Sent(digest, source, t, front, key);
    }
    if key :| Whole(digest, source, t[a], key) && key !in to {
      forall b, k | b in front && b in t && Whole(digest, source, t[b], k) ensures !Whole(digest, source, t[a], k) {
        assert Sent(digest, source, t, front, k);
        if Whole(digest, source, t[a], k) { WholeOnce(digest, source, t[a], key, k); }
      }
    }
  }

  lemma CopyMore(digest: Bytes -> string, source: Files, t: ArtifactTable, front: seq<string>, a: string, to: Files,
    key: (string, string))
    requires a in t && Exactly(digest, source, t, front, to) && Whole(digest, source, t[a], key) && key !in to
    ensures key in source && Exactly(digest, source, t, front + [a], to[key := source[key]])
  {
    SentMore(digest, source, t, front, a, key);
    hide Sent;
  }

  lemma SentMore(digest: Bytes -> string, source: Files, t: ArtifactTable, front: seq<string>, a: string, key: (string, string))
    requires a in t && Whole(digest, source, t[a], key)
    ensures forall k :: Sent(digest, source, t, front + [a], k) <==> Sent(digest, source, t, front, k) || k == key
  {
    hide Whole;
    assert forall x :: x in front + [a] <==> x in front || x == a;
    forall k ensures Sent(digest, source, t, front + [a], k) <==> Sent(digest, source, t, front, k) || k == key {
      if Whole(digest, source, t[a], k) { WholeOnce(digest, source, t[a], key, k); }
    }
  }

  lemma CopySkip(digest: Bytes -> string, source: Files, t: ArtifactTable, front: seq<string>, a: string)
    requires a !in t
    ensures AllWhole(digest, source, t, front + [a]) <==> AllWhole(digest, source, t, front)
    ensures Apart(digest, source, t, front + [a]) <==> Apart(digest, source, t, front)
    ensures forall to :: Exactly(digest, source, t, front + [a], to) <==> Exactly(digest, source, t, front, to)
  {
    hide Whole;
    assert forall x :: x in front + [a] <==> x in front || x == a;
    forall k ensures Sent(digest, source, t, front + [a], k) <==> Sent(digest, source, t, front, k) { }
  }

  // ---------------------------------------------------------------- files restored

  /** The archived file of every artifact of `keys` is whole, and no other file of the target is in its place. */
  ghost predicate Welcome(digest: Bytes -> string, archive: Files, target: Files, t: ArtifactTable, keys: seq<string>) {
    forall a :: a in keys && a in t ==>
      exists key :: Whole(digest, archive, t[a], key) && (key in target ==> target[key] == archive[key])
  }

  /** The target with exactly those files. */
  ghost predicate Joined(digest: Bytes -> string, archive: Files, target: Files, t: ArtifactTable, keys: seq<string>, files: Files) {
    && (forall key :: key in files <==> key in target || Sent(digest, archive, t, keys, key))
    && forall key :: key in files ==> if key in target then files[key] == target[key] else key in archive && files[key] == archive[key]
  }

  lemma RestoreOneIs(digest: Bytes -> string, archive: Files, files: Files, row: ArtifactRow)
    ensures RestoreOne(digest, archive, files, row).error.None? <==>
      exists key :: Whole(digest, archive, row, key) && (key in files ==> files[key] == archive[key])
    ensures forall key :: Whole(digest, archive, row, key) && (key in files ==> files[key] == archive[key]) ==>
      key in archive && RestoreOne(digest, archive, files, row) == Restored(files[key := archive[key]], None)
  {
    hide NormalizeRelativePath;
    if NormalizeRelativePath(row.path).Path? {
      var key := (row.intentId, NormalizeRelativePath(row.path).normal);
      assert RestoreOne(digest, archive, files, row).error.None? ==> Whole(digest, archive, row, key);
      if key in files && key in archive && files[key] == archive[key] { assert files[key := archive[key]] == files; }
    }
  }

  lemma RestoreNext(digest: Bytes -> string, archive: Files, target: Files, t: ArtifactTable, keys: seq<string>)
    requires keys != []
    ensures var front, a := keys[..|keys|-1], keys[|keys|-1]; var before := Restore(digest, archive, target, t, front);
      Restore(digest, archive, target, t, keys) ==
        if before.error.Some? || a !in t then before else RestoreOne(digest, archive, before.files, t[a])
  {
    hide RestoreOne;
  }

  /** The restore goes through if and only if every artifact is welcome; then the target has exactly their files more. */
  lemma {:induction false} RestoreIs(digest: Bytes -> string, archive: Files, target: Files, t: ArtifactTable, keys: seq<string>)
    ensures Restore(digest, archive, target, t, keys).error.None? <==> Welcome(digest, archive, target, t, keys)
    ensures Restore(digest, archive, target, t, keys).error.None? ==>
      Joined(digest, archive, target, t, keys, Restore(digest, archive, target, t, keys).files)
  {
    if keys == [] {
    } else {
      var front, a := keys[..|keys|-1], keys[|keys|-1];
      assert keys == front + [a];
      RestoreIs(digest, archive, target, t, front);
      RestoreNext(digest, archive, target, t, keys);
      var files := Restore(digest, archive, target, t, front).files;
      if a in t {
        RestoreOneIs(digest, archive, files, t[a]);
        if Joined(digest, archive, target, t, front, files) { RestoreLast(digest, archive, target, t, front, a, files); }
      }
      RestoreFront(digest, archive, target, t, front, a);
      hide *;
    }
  }

  lemma RestoreFront(digest: Bytes -> string, archive: Files, target: Files, t: ArtifactTable, front: seq<string>, a: string)
    ensures Welcome(digest, archive, target, t, front + [a]) ==> Welcome(digest, archive, target, t, front)
    ensures a !in t ==> (Welcome(digest, archive, target, t, front + [a]) <==> Welcome(digest, archive, target, t, front))
    ensures a !in t ==> forall files ::
      Joined(digest, archive, target, t, front + [a], files) <==> Joined(digest, archive, target, t, front, files)
  {
    hide Whole;
    assert forall x :: x in front + [a] <==> x in front || x == a;
    if a !in t {
      forall k ensures Sent(digest, archive, t, front + [a], k) <==> Sent(digest, archive, t, front, k) { }
    }
  }

  lemma RestoreLast(digest: Bytes -> string, archive: Files, target: Files, t: ArtifactTable, front: seq<string>, a: string, files: Files)
    requires a in t && Joined(digest, archive, target, t, front, files)
    ensures Welcome(digest, archive, target, t, front) ==>
      (Welcome(digest, archive, target, t, front + [a]) <==>
        exists key :: Whole(digest, archive, t[a], key) && (key in files ==> files[key] == archive[key]))
    ensures forall key :: Whole(digest, archive, t[a], key) && (key in files ==> files[key] == archive[key]) ==>
      key in archive && Joined(digest, archive, target, t, front + [a], files[key := archive[key]])
  {
    hide Whole;
    assert forall x :: x in front + [a] <==> x in front || x == a;
    forall key | Whole(digest, archive, t[a], key)
      ensures key in archive && ((key in files ==> files[key] == archive[key]) <==> (key in target ==> target[key] == archive[key]))
    {
      WholeThere(digest, archive, t[a], key);
    }
    forall key | Whole(digest, archive, t[a], key) && (key in files ==> files[key] == archive[key])
      ensures key in archive && Joined(digest, archive, target, t, front + [a], files[key := archive[key]])
    {
      RestoreMore(digest, archive, target, t, front, a, files, key);
    }
    hide Joined;
    if Welcome(digest, archive, target, t, front + [a]) { assert a in front + [a]; }
  }

  lemma WholeThere(digest: Bytes -> string, files: Files, row: ArtifactRow, key: (string, string))
    requires Whole(digest, files, row, key)
    ensures key in files
  {
    hide NormalizeRelativePath;
  }

  lemma RestoreMore(
    digest: Bytes -> string, archive: Files, target: Files, t: ArtifactTable, front: seq<string>, a: string, files: Files, key: (string, string))
    requires a in t && Joined(digest, archive, target, t, front, files)
    requires Whole(digest, archive, t[a], key) && (key in files ==> key in archive && files[key] == archive[key])
    ensures key in archive && Joined(digest, archive, target, t, front + [a], files[key := archive[key]])
  {
    WholeThere(digest, archive, t[a], key);
    SentMore(digest, archive, t, front, a, key);
    hide Whole, Sent;
    var more := files[key := archive[key]];
    forall k ensures k in more <==> k in target || Sent(digest, archive, t, front + [a], k) { }
    forall k | k in more ensures if k in target then more[k] == target[k] else k in archive && more[k] == archive[k] { }
  }

  // ---------------------------------------------------------------- import

  /** The archive may be inserted into the target: its manifest vouches for the ledger text and the files, every line is
      an object, the manifest counts and bounds them, each is one row, and the target holds none. */
  ghost predicate Importable(db: Db, seals: Seals, folder: Folder, m: map<string, Json>, docs: seq<map<string, Json>>, es: History) {
    && Vouches(seals, folder, m) && Reads(SplitLines(folder.ledger), docs) && Bounds(m, docs)
    && db.events == [] && Rows(docs, es)
  }

  /** What is inserted is replayed, its files are welcome, and the audit then finds nothing. */
  ghost predicate Settles(db: Db, folder: Folder, m: map<string, Json>, es: History) {
    var t := Workspace.Artifacts(es);
    && ValidChain(db.cfg.hash, es) && Replayable(es)
    && Welcome(db.cfg.digest, folder.workspace, db.files, t, SortedKeys(t.Keys))
    && Clean(AfterImport(db, folder, es), Receipts.RebuiltTable(es), true) && Complete(m)
  }

  lemma ImportableIs(db: Db, seals: Seals, folder: Folder, m: map<string, Json>, docs: seq<map<string, Json>>, es: History)
    ensures Importable(db, seals, folder, m, docs, es) <==>
      Unpack(seals, folder) == Ok((m, docs)) && db.events == [] && DecodeRows(docs) == Ok(es)
  {
    hide Vouches, Reads, Bounds, Rows, Unpack, DecodeRows, SplitLines;
    UnpackIs(seals, folder, m, docs);
    DecodedIs(docs, es);
  }

  lemma InsertableIs(db: Db, seals: Seals, folder: Folder)
    ensures Insertable(db, seals, folder) <==>
      exists m: map<string, Json>, docs: seq<map<string, Json>>, es: History :: Importable(db, seals, folder, m, docs, es)
  {
    hide Importable, Unpack, DecodeRows;
    if Insertable(db, seals, folder) {
      var (m, docs) := Unpack(seals, folder).value;
      ImportableIs(db, seals, folder, m, docs, DecodeRows(docs).value);
    }
    if m: map<string, Json>, docs: seq<map<string, Json>>, es: History :| Importable(db, seals, folder, m, docs, es) {
      ImportableIs(db, seals, folder, m, docs, es);
    }
  }

  lemma LandingIs(db: Db, folder: Folder, m: map<string, Json>, es: History)
    ensures ValidChain(db.cfg.hash, es) ==> (Landing(db, folder, m, es) == Ok(m) <==> Settles(db, folder, m, es))
    ensures Landing(db, folder, m, es).Ok? ==> Landing(db, folder, m, es) == Ok(m)
  {
    hide Replayable, Welcome, Clean, Complete, Restore, ValidChain, Workspace.Artifacts, AfterImport;
    var t := Workspace.Artifacts(es);
    RestoreIs(db.cfg.digest, folder.workspace, db.files, t, SortedKeys(t.Keys));
  }

  /** An import succeeds if and only if the archive may be inserted and settles; the result is the manifest. */
  lemma ImportAccepts(db: Db, seals: Seals, folder: Folder, m: map<string, Json>)
    ensures Importing(db, seals, folder) == Ok(m) <==>
      exists docs: seq<map<string, Json>>, es: History :: Importable(db, seals, folder, m, docs, es) && Settles(db, folder, m, es)
  {
    hide Importable, Settles, Unpack, DecodeRows, Landing, ValidChain;
    if Importing(db, seals, folder) == Ok(m) {
      var (manifest, docs) := Unpack(seals, folder).value;
      var es := DecodeRows(docs).value;
      LandingIs(db, folder, manifest, es);
      ImportableIs(db, seals, folder, manifest, docs, es);
    }
    if docs: seq<map<string, Json>>, es: History :| Importable(db, seals, folder, m, docs, es) && Settles(db, folder, m, es) {
      ImportableIs(db, seals, folder, m, docs, es);
      SettledChain(db, folder, m, es);
      LandingIs(db, folder, m, es);
    }
  }

  lemma SettledChain(db: Db, folder: Folder, m: map<string, Json>, es: History)
    requires Settles(db, folder, m, es)
    ensures ValidChain(db.cfg.hash, es) && Replayable(es)
  {
    hide Replayable, Welcome, Clean, Complete, ValidChain;
  }

  /** An archive that may not be inserted is refused without a trace. */
  lemma ImportRefuses(db: Db, seals: Seals, folder: Folder)
    requires forall m: map<string, Json>, docs: seq<map<string, Json>>, es: History :: !Importable(db, seals, folder, m, docs, es)
    ensures Importing(db, seals, folder).Fail? && Imported(db, seals, folder) == db
  {
    hide Importable, Unpack, DecodeRows, Landing, ValidChain;
    InsertableIs(db, seals, folder);
  }

  /** What acceptance says of the archive and leaves in the target. */
  lemma ImportVouches(db: Db, seals: Seals, folder: Folder)
    requires Importing(db, seals, folder).Ok?
    ensures var m, es := Importing(db, seals, folder).value, Imported(db, seals, folder).events;
      && Vouches(seals, folder, m) && db.events == [] && Workspace.Integer(m, "event_count") == Some(|es|)
      && (es != [] ==> Kept(Get(m, "first_event_id")) == Some(es[0].id) && Kept(Get(m, "last_event_id")) == Some(es[|es|-1].id))
      && Imported(db, seals, folder) == AfterImport(db, folder, es)
    ensures var es := Imported(db, seals, folder).events; var t := Workspace.Artifacts(es);
      Joined(db.cfg.digest, folder.workspace, db.files, t, SortedKeys(t.Keys), Imported(db, seals, folder).files)
  {
    hide Unpack, DecodeRows, Landing, ValidChain, Settles, Importable, Replayable, Joined, Restore, Workspace.Artifacts, Replayed;
    var m := Importing(db, seals, folder).value;
    ImportAccepts(db, seals, folder, m);
    var docs: seq<map<string, Json>>, es: History :| Importable(db, seals, folder, m, docs, es) && Settles(db, folder, m, es);
    ImportableIs(db, seals, folder, m, docs, es);
    SettledChain(db, folder, m, es);
    ReplayedKeeps(db.(events := es, files := Landed(db, folder, es).files));
    SettledFiles(db, folder, m, es);
    ImportedBounds(db, seals, folder, m, docs, es);
  }

  lemma ReplayedKeeps(db: Db)
    ensures Replayed(db).events == db.events && Replayed(db).files == db.files
  {
  }

  lemma SettledFiles(db: Db, folder: Folder, m: map<string, Json>, es: History)
    requires Settles(db, folder, m, es)
    ensures var t := Workspace.Artifacts(es);
      Joined(db.cfg.digest, folder.workspace, db.files, t, SortedKeys(t.Keys), Landed(db, folder, es).files)
  {
    hide Replayable, Welcome, Clean, Complete, ValidChain, Restore, Joined, Workspace.Artifacts;
    var t := Workspace.Artifacts(es);
    RestoreIs(db.cfg.digest, folder.workspace, db.files, t, SortedKeys(t.Keys));
  }

  lemma RowId(doc: map<string, Json>, e: Event)
    requires DecodeRow(doc) == Ok(e)
    ensures Kept(Get(doc, "id")) == Some(e.id)
  {
    hide MissingColumn, Column;
  }

  lemma ImportedBounds(db: Db, seals: Seals, folder: Folder, m: map<string, Json>, docs: seq<map<string, Json>>, es: History)
    requires Importable(db, seals, folder, m, docs, es)
    ensures Vouches(seals, folder, m) && db.events == [] && Workspace.Integer(m, "event_count") == Some(|es|)
    ensures es != [] ==> Kept(Get(m, "first_event_id")) == Some(es[0].id) && Kept(Get(m, "last_event_id")) == Some(es[|es|-1].id)
  {
    hide Vouches, Reads, DecodeRow, DistinctIds, Kept, Workspace.Integer, SplitLines;
    if es != [] {
      RowId(docs[0], es[0]);
      RowId(docs[|es|-1], es[|es|-1]);
    }
  }

  // ---------------------------------------------------------------- tampering

  lemma ManifestReads(db: Db, seals: Seals, createdAt: string)
    requires Export(db, seals, createdAt, true).Ok?
    ensures var exported := Export(db, seals, createdAt, true).value;
      && exported.ledger == LedgerJsonl(db.events) && db.events != []
      && Loads(exported.manifest) == Some(Obj(Manifest(seals, createdAt, db.events, exported.ledger, exported.workspace)))
  {
    hide Copy, LedgerJsonl, Dumps, Loads, Manifest;
    var exported := Export(db, seals, createdAt, true).value;
    LoadsDumps(Obj(Manifest(seals, createdAt, db.events, exported.ledger, exported.workspace)), true);
  }

  /** What is imported under an exported manifest is what was exported, or shows two texts, or two trees, with one
      digest. */
  lemma TamperedImport(source: Db, target: Db, seals: Seals, createdAt: string, folder: Folder)
    requires Export(source, seals, createdAt, true).Ok?
    requires folder.manifest == Export(source, seals, createdAt, true).value.manifest && Importing(target, seals, folder).Ok?
    ensures var exported := Export(source, seals, createdAt, true).value;
      && seals.text(folder.ledger) == seals.text(exported.ledger) && seals.tree(folder.workspace) == seals.tree(exported.workspace)
      && ((forall a, b :: seals.text(a) == seals.text(b) ==> a == b) ==> folder.ledger == exported.ledger)
      && ((forall a, b :: seals.tree(a) == seals.tree(b) ==> a == b) ==> folder.workspace == exported.workspace)
  {
    hide Export, Importing, Imported, Loads, AfterImport, Joined;
    ManifestReads(source, seals, createdAt);
    ImportVouches(target, seals, folder);
  }

  // ---------------------------------------------------------------- export

  /** An export succeeds if and only if the directory is free, the ledger holds a row, and every artifact's file is
      whole, at a place of its own; it then holds the ledger's text, a manifest that vouches for it, and exactly the
      files of the artifacts. */
  lemma ExportAccepts(db: Db, seals: Seals, createdAt: string, free: bool)
    ensures var keys := SortedKeys(db.artifacts.Keys);
      Export(db, seals, createdAt, free).Ok? <==>
        && free && db.events != []
        && AllWhole(db.cfg.digest, db.files, db.artifacts, keys) && Apart(db.cfg.digest, db.files, db.artifacts, keys)
    ensures Export(db, seals, createdAt, free).Ok? ==>
      var exported := Export(db, seals, createdAt, free).value;
      && exported.ledger == LedgerJsonl(db.events)
      && Exactly(db.cfg.digest, db.files, db.artifacts, SortedKeys(db.artifacts.Keys), exported.workspace)
      && Loads(exported.manifest) == Some(Obj(map[
           "created_at" := Str(createdAt), "first_event_id" := Str(db.events[0].id), "last_event_id" := Str(db.events[|db.events|-1].id),
           "event_count" := Int(|db.events|), "ledger_events_sha256" := Str(seals.text(exported.ledger)),
           "workspace_sha256" := Str(seals.tree(exported.workspace))]))
    ensures !free ==> Export(db, seals, createdAt, free) == Fail("ARCHIVE_EXISTS")
    ensures free && db.events == [] ==> Export(db, seals, createdAt, free) == Fail("EMPTY_LEDGER")
  {
    hide Copy, LedgerJsonl, Dumps, Loads, AllWhole, Apart, Exactly;
    var keys := SortedKeys(db.artifacts.Keys);
    KeysDiffer(keys);
    CopyIs(db.cfg.digest, db.files, db.artifacts, keys);
    if Export(db, seals, createdAt, free).Ok? { ManifestReads(db, seals, createdAt); }
  }

  lemma KeysDiffer(keys: seq<string>)
    requires Sorted(keys)
    ensures forall j, k :: 0 <= j < k < |keys| ==> keys[j] != keys[k]
  {
    forall j, k | 0 <= j < k < |keys| ensures keys[j] != keys[k] { SortedDistinct(keys, k); }
  }

  /** An archive altered under its manifest is refused by name and without a trace: for its text first, then for its
      files; one that is not altered, by a target that holds events. */
  lemma AlteredImport(source: Db, target: Db, seals: Seals, createdAt: string, folder: Folder)
    requires Export(source, seals, createdAt, true).Ok? && Consistent(source.events) && DistinctIds(source.events)
    requires folder.manifest == Export(source, seals, createdAt, true).value.manifest
    ensures var exported := Export(source, seals, createdAt, true).value;
      var code := if seals.text(folder.ledger) != seals.text(exported.ledger) then Some("LEDGER_SHA_MISMATCH")
        else if folder.ledger == exported.ledger && seals.tree(folder.workspace) != seals.tree(exported.workspace) then Some("WORKSPACE_SHA_MISMATCH")
        else if folder == exported && target.events != [] then Some("LEDGER_NOT_EMPTY")
        else None;
      code.Some? ==> Importing(target, seals, folder) == Fail(code.value) && Imported(target, seals, folder) == target
  {
    hide Export, Loads, Landing, ValidChain, DecodeRows, ParseLines, SplitLines, LedgerJsonl, Docs, Consistent,
      DistinctIds, Manifest, VerifyManifest;
    ManifestReads(source, seals, createdAt);
    var exported := Export(source, seals, createdAt, true).value;
    LedgerReadsBack(source.events);
    ManifestVerified(seals, createdAt, source.events, exported.ledger, exported.workspace);
  }
}
