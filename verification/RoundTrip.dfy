/** Export followed by import reproduces the ledger, its files and its tables. */
module RoundTrip {
  import opened Strings
  import opened Json
  import opened JsonText
  import opened Ledger
  import opened State
  import opened Paths
  import opened Jsonl
  import opened Invariant
  import opened Auditor
  import opened Archive
  import Inbox
  import Claims
  import Lifecycle
  import Registry
  import Sessions
  import Workspace
  import Receipts

  // ---------------------------------------------------------------- the files

  /** Where a row's file is. */
  function KeyOf(row: ArtifactRow): (string, string) {
    (row.intentId, row.path)
  }

  /** Rows are located and their files intact. */
  ghost predicate Intact(digest: Bytes -> string, files: Files, t: ArtifactTable) {
    Workspace.Located(t) && forall a :: a in t ==> Workspace.Backed(digest, files, t[a])
  }

  /** The files hold exactly the artifacts `keys`, with the contents of `source`. */
  ghost predicate Copied(files: Files, source: Files, t: ArtifactTable, keys: seq<string>) {
    && (forall x, p :: (x, p) in files ==> exists n :: 0 <= n < |keys| && keys[n] in t && KeyOf(t[keys[n]]) == (x, p))
    && (forall n :: 0 <= n < |keys| && keys[n] in t ==> KeyOf(t[keys[n]]) in files)
    && forall k :: k in files ==> k in source && files[k] == source[k]
  }

  lemma IntactRow(digest: Bytes -> string, files: Files, t: ArtifactTable, a: string)
    requires Intact(digest, files, t) && a in t
    ensures NormalizeRelativePath(t[a].path) == Path(t[a].path) && KeyOf(t[a]) in files
    ensures |files[KeyOf(t[a])]| == t[a].size && digest(files[KeyOf(t[a])]) == t[a].sha256
  {
    hide NormalizeRelativePath;
    assert Workspace.Backed(digest, files, t[a]);
  }

  /** The next artifact is not among the copied ones. */
  lemma NotCopied(digest: Bytes -> string, files: Files, source: Files, t: ArtifactTable, keys: seq<string>, a: string)
    requires Intact(digest, source, t) && Copied(files, source, t, keys) && a in t && a !in keys
    ensures KeyOf(t[a]) !in files
  {
    hide NormalizeRelativePath, Workspace.Backed;
  }

  lemma CopiedMore(files: Files, source: Files, t: ArtifactTable, keys: seq<string>, a: string)
    requires Copied(files, source, t, keys) && a in t && KeyOf(t[a]) in source
    ensures Copied(files[KeyOf(t[a]) := source[KeyOf(t[a])]], source, t, keys + [a])
  {
    var more, ks := files[KeyOf(t[a]) := source[KeyOf(t[a])]], keys + [a];
    forall x, p | (x, p) in more
      ensures exists n :: 0 <= n < |ks| && ks[n] in t && KeyOf(t[ks[n]]) == (x, p)
    {
      if (x, p) in files {
        var n :| 0 <= n < |keys| && keys[n] in t && KeyOf(t[keys[n]]) == (x, p);
        assert ks[n] == keys[n];
      } else {
        assert ks[|keys|] == a;
      }
    }
  }

  lemma {:induction false} CopySucceeds(digest: Bytes -> string, source: Files, t: ArtifactTable, keys: seq<string>, n: nat)
    requires n <= |keys| && Sorted(keys) && Intact(digest, source, t) && forall k :: k in keys ==> k in t
    ensures Copy(digest, source, t, keys[..n]).Ok? && Copied(Copy(digest, source, t, keys[..n]).value, source, t, keys[..n])
  {
    hide Copied, Intact, NormalizeRelativePath, Copy;
    if n == 0 {
      NothingCopied(digest, source, t);
    } else {
      CopySucceeds(digest, source, t, keys, n - 1);
      var to, a := Copy(digest, source, t, keys[..n-1]).value, keys[n-1];
      assert a in keys;
      CopyStep(digest, source, t, keys, n - 1, to);
      IntactRow(digest, source, t, a);
      SortedDistinct(keys, n - 1);
      NotCopied(digest, to, source, t, keys[..n-1], a);
      CopiedMore(to, source, t, keys[..n-1], a);
      assert keys[..n] == keys[..n-1] + [a];
    }
  }

  lemma NothingCopied(digest: Bytes -> string, source: Files, t: ArtifactTable)
    ensures Copy(digest, source, t, []) == Ok(map[]) && Copied(map[], source, t, [])
  {
  }

  /** Restoring from the copied files gives the target every artifact of the source. */
  ghost predicate Holding(files: Files, target: Files, source: Files, t: ArtifactTable, keys: seq<string>) {
    && (forall n :: 0 <= n < |keys| && keys[n] in t ==>
         KeyOf(t[keys[n]]) in files && KeyOf(t[keys[n]]) in source && files[KeyOf(t[keys[n]])] == source[KeyOf(t[keys[n]])])
    && (forall k :: k in target ==> k in files && files[k] == target[k])
    && forall k :: k in files ==> (k in target && files[k] == target[k]) || (k in source && files[k] == source[k])
  }

  /** No file of the target stands in the way. */
  ghost predicate Compatible(target: Files, archive: Files) {
    forall k :: k in target && k in archive ==> target[k] == archive[k]
  }

  lemma HoldingMore(files: Files, target: Files, source: Files, t: ArtifactTable, keys: seq<string>, a: string)
    requires Holding(files, target, source, t, keys) && a in t && KeyOf(t[a]) in source
    requires KeyOf(t[a]) in files ==> files[KeyOf(t[a])] == source[KeyOf(t[a])]
    ensures Holding(files[KeyOf(t[a]) := source[KeyOf(t[a])]], target, source, t, keys + [a])
  {
    var more, ks := files[KeyOf(t[a]) := source[KeyOf(t[a])]], keys + [a];
    forall n | 0 <= n < |ks| && ks[n] in t
      ensures KeyOf(t[ks[n]]) in more && KeyOf(t[ks[n]]) in source && more[KeyOf(t[ks[n]])] == source[KeyOf(t[ks[n]])]
    {
      if n < |keys| { assert ks[n] == keys[n]; }
    }
  }

  lemma {:induction false} RestoreSucceeds(
    digest: Bytes -> string, archive: Files, target: Files, source: Files, t: ArtifactTable, keys: seq<string>, n: nat)
    requires n <= |keys| && Intact(digest, source, t) && (forall k :: k in keys ==> k in t)
    requires Copied(archive, source, t, keys) && Compatible(target, archive)
    ensures var r := Restore(digest, archive, target, t, keys[..n]);
      r.error.None? && Holding(r.files, target, source, t, keys[..n])
  {
    hide Copied, Intact, NormalizeRelativePath, Restore, Holding, Compatible;
    if n == 0 {
      NothingRestored(digest, archive, target, source, t);
    } else {
      RestoreSucceeds(digest, archive, target, source, t, keys, n - 1);
      var files, a := Restore(digest, archive, target, t, keys[..n-1]).files, keys[n-1];
      assert a in keys;
      RestoreStep(digest, archive, target, t, keys, n - 1, files);
      IntactRow(digest, source, t, a);
      Archived(archive, source, t, keys, n - 1);
      HeldAgrees(files, target, source, archive, t, keys[..n-1], KeyOf(t[a]));
      HoldingMore(files, target, source, t, keys[..n-1], a);
      if KeyOf(t[a]) in files { assert files[KeyOf(t[a]) := source[KeyOf(t[a])]] == files; }
      assert keys[..n] == keys[..n-1] + [a];
    }
  }

  lemma NothingRestored(digest: Bytes -> string, archive: Files, target: Files, source: Files, t: ArtifactTable)
    ensures Restore(digest, archive, target, t, []) == Restored(target, None) && Holding(target, target, source, t, [])
  {
  }

  lemma Archived(archive: Files, source: Files, t: ArtifactTable, keys: seq<string>, n: nat)
    requires Copied(archive, source, t, keys) && n < |keys| && keys[n] in t
    ensures KeyOf(t[keys[n]]) in archive && KeyOf(t[keys[n]]) in source && archive[KeyOf(t[keys[n]])] == source[KeyOf(t[keys[n]])]
  {
  }

  lemma HeldAgrees(
    files: Files, target: Files, source: Files, archive: Files, t: ArtifactTable, keys: seq<string>, k: (string, string))
    requires Holding(files, target, source, t, keys) && Compatible(target, archive)
    requires k in archive && k in source && archive[k] == source[k]
    ensures k in files ==> files[k] == source[k]
  {
  }

  // ---------------------------------------------------------------- the ledger

  lemma {:induction false} GoodConsistent(cfg: Config, es: History)
    requires Good(cfg, es)
    ensures Consistent(es) && Lifecycle.Readable(es)
  {
    hide Shaped, Invariant.Legal, Column, Head;
    if es != [] {
      var front, e := es[..|es|-1], es[|es|-1];
      GoodConsistent(cfg, front);
      BasicColumn(cfg, front, e);
      hide Basic, Written, IsDoc;
      forall k | 0 <= k < |es| ensures es[k].payload == Column(es[k].payload.text) && IsDoc(es[k]) {
        if k < |front| {
          assert front[k] == es[k];
          GoodDoc(cfg, front, k);
        }
      }
    }
  }

  lemma BasicColumn(cfg: Config, es: History, e: Event)
    requires Basic(cfg, es, e)
    ensures e.payload == Column(e.payload.text) && IsDoc(e)
  {
    WrittenReads(e.payload.value);
    hide Written, Column, Head;
  }

  lemma {:induction false} GoodDoc(cfg: Config, es: History, k: nat)
    requires Good(cfg, es) && k < |es|
    ensures IsDoc(es[k])
  {
    hide Shaped, Invariant.Legal, Column, Head, Written;
    if k < |es| - 1 { GoodDoc(cfg, es[..|es|-1], k); } else { BasicColumn(cfg, es[..|es|-1], es[k]); }
  }

  lemma DocsEnds(es: History)
    requires es != []
    ensures |Docs(es)| == |es| && Get(Docs(es)[0], "id") == Str(es[0].id) && Get(Docs(es)[|es|-1], "id") == Str(es[|es|-1].id)
  {
  }

  lemma ManifestVerified(seals: Seals, createdAt: string, es: History, ledger: string, workspace: Files)
    requires es != []
    ensures var m := Manifest(seals, createdAt, es, ledger, workspace);
      && VerifyManifest(m, Docs(es)) == None && Complete(m)
      && "ledger_events_sha256" in m && m["ledger_events_sha256"] == Str(seals.text(ledger))
      && Get(m, "workspace_sha256") == Str(seals.tree(workspace))
  {
    hide Docs;
    DocsEnds(es);
  }

  /** What was exported unpacks to the rows of the ledger. */
  lemma Unpacks(seals: Seals, createdAt: string, es: History, workspace: Files)
    requires es != [] && Consistent(es) && DistinctIds(es)
    ensures var ledger := LedgerJsonl(es);
      var m := Manifest(seals, createdAt, es, ledger, workspace);
      Unpack(seals, Folder(ledger, Dumps(Obj(m), true), workspace)) == Ok((m, Docs(es))) && DecodeRows(Docs(es)) == Ok(es)
  {
    hide Consistent, DistinctIds, LedgerJsonl, Manifest, Dumps, Loads, ParseLines, SplitLines, DecodeRows, Docs, VerifyManifest, Get;
    var ledger := LedgerJsonl(es);
    var m := Manifest(seals, createdAt, es, ledger, workspace);
    LoadsDumps(Obj(m), true);
    LedgerReadsBack(es);
    ManifestVerified(seals, createdAt, es, ledger, workspace);
  }

  // ---------------------------------------------------------------- the round trip

  lemma InvIntact(db: Db)
    requires Inv(db)
    ensures Intact(db.cfg.digest, db.files, db.artifacts) && Good(db.cfg, db.events) && Synced(db)
    ensures db.artifacts == Workspace.Artifacts(db.events)
  {
    assert Holds(LegalHistory, db) && Holds(LiveTables, db) && Holds(StoredFiles, db);
    hide Good, Workspace.Backed, Accounted, RegistryKnown, Sane, Workspace.Artifacts, NormalizeRelativePath;
    GoodRest(db.cfg, db.events);
    Workspace.RowsLocated(db.events);
  }

  /** The export of a reachable state succeeds; its workspace holds exactly the artifact files. */
  lemma Exports(db: Db, seals: Seals, createdAt: string)
    requires Inv(db) && db.events != []
    ensures Export(db, seals, createdAt, true).Ok?
    ensures Copied(Export(db, seals, createdAt, true).value.workspace, db.files, db.artifacts, SortedKeys(db.artifacts.Keys))
    ensures Export(db, seals, createdAt, true).value.ledger == LedgerJsonl(db.events)
  {
    hide Inv, Copy, Copied, Intact, LedgerJsonl, Dumps, Manifest;
    InvIntact(db);
    var keys := SortedKeys(db.artifacts.Keys);
    CopySucceeds(db.cfg.digest, db.files, db.artifacts, keys, |keys|);
    assert keys[..|keys|] == keys;
  }

  /** The state an import leaves has the legal history and its tables, so the audit is clean unless a name was
      registered twice. */
  lemma ImportedClean(after: Db)
    requires Good(after.cfg, after.events) && Synced(after) && FilesBacked(after)
    ensures Clean(after, Receipts.RebuiltTable(after.events), true) <==> Registry.DuplicateErrors(after.events) == []
  {
    Registry.DuplicateCheckExact(after.events);
    hide Good, Synced, FilesBacked, HistoryClean, TablesClean, MoreTablesClean, FilesClean, ReceiptsClean,
      Registry.DuplicateErrors, Registry.RegisteredOnce,
      Receipts.RebuiltTable, Workspace.Expected, Receipts.LegalReceipts, Sessions.LegalSessions, Workspace.LegalFiles, Receipts.ExactFor,
      Inbox.KnownIntents;
    CoreClean(after);
    GoodRest(after.cfg, after.events);
    forall i | i in Inbox.KnownIntents(after.events) ensures Receipts.ExactFor(after.events, i) {
      KnownInUse(after.cfg, after.events, i);
      GoodExactFor(after.cfg, after.events, i);
    }
    FreshReceiptsClean(Receipts.RebuiltTable(after.events), after.events);
    BackedFilesClean(after);
  }

  lemma ReplayedSynced(db: Db)
    ensures Synced(Replayed(db)) && Replayed(db).artifacts == Workspace.Artifacts(db.events)
    ensures Replayed(db).events == db.events && Replayed(db).files == db.files && Replayed(db).cfg == db.cfg
  {
    hide Inbox.Entries, Lifecycle.Runs, Inbox.Intents, Registry.Workers, Claims.Claims, Workspace.Artifacts, Sessions.Books;
  }

  /** Files that hold every artifact of an intact source back every row. */
  lemma HoldingBacked(after: Db, digest: Bytes -> string, target: Files, source: Files, keys: seq<string>)
    requires after.cfg.digest == digest && Intact(digest, source, after.artifacts)
    requires Holding(after.files, target, source, after.artifacts, keys) && forall a :: a in after.artifacts ==> a in keys
    ensures FilesBacked(after)
  {
    hide NormalizeRelativePath;
    forall a | a in after.artifacts ensures Workspace.Backed(digest, after.files, after.artifacts[a]) {
      IntactRow(digest, source, after.artifacts, a);
      var n :| 0 <= n < |keys| && keys[n] == a;
    }
  }

  /** The ledger lands in the target with its files. */
  lemma Lands(source: Db, target: Db, folder: Folder)
    requires Inv(source) && target.cfg == source.cfg && Compatible(target.files, folder.workspace)
    requires Copied(folder.workspace, source.files, source.artifacts, SortedKeys(source.artifacts.Keys))
    ensures var landed := Landed(target, folder, source.events);
      landed.error.None? && Holding(landed.files, target.files, source.files, source.artifacts, SortedKeys(source.artifacts.Keys))
  {
    hide Inv, Copied, Intact, Restore, Holding, Compatible, Workspace.Artifacts;
    InvIntact(source);
    var keys := SortedKeys(source.artifacts.Keys);
    RestoreSucceeds(source.cfg.digest, folder.workspace, target.files, source.files, source.artifacts, keys, |keys|);
    assert keys[..|keys|] == keys;
  }

  lemma RebuildsSucceed(db: Db)
    requires Inv(db)
    ensures Replayable(db.events) && ValidChain(db.cfg.hash, db.events) && Consistent(db.events) && DistinctIds(db.events)
  {
    hide Lifecycle.Readable, Workspace.AllInsertable, Consistent, DistinctIds, ValidChain, Intact, Synced, Workspace.LegalFiles, Inv;
    InvIntact(db);
    GoodConsistent(db.cfg, db.events);
    GoodRest(db.cfg, db.events);
    Workspace.LegalRebuild(db.events);
    GoodChain(db.cfg, db.events);
  }

  /** What the target then holds. */
  lemma LandedClean(source: Db, target: Db, folder: Folder)
    requires Inv(source) && target.cfg == source.cfg
    requires Holding(Landed(target, folder, source.events).files, target.files, source.files, source.artifacts, SortedKeys(source.artifacts.Keys))
    ensures var after := AfterImport(target, folder, source.events);
      && (Clean(after, Receipts.RebuiltTable(source.events), true) <==> Registry.DuplicateErrors(source.events) == [])
      && after.events == source.events && after.artifacts == source.artifacts && after.runs == source.runs
      && after.intents == source.intents && after.inbox == source.inbox && after.claims == source.claims
      && after.workers == source.workers && after.sessions == source.sessions && after.members == source.members
      && after.files == Landed(target, folder, source.events).files
  {
    hide Inv, Intact, Holding, Landed, Clean, Replayed, Good, Registry.DuplicateErrors, FilesBacked;
    InvIntact(source);
    var before := target.(events := source.events, files := Landed(target, folder, source.events).files);
    var after := AfterImport(target, folder, source.events);
    ReplayedSynced(before);
    HoldingBacked(after, source.cfg.digest, target.files, source.files, SortedKeys(source.artifacts.Keys));
    ImportedClean(after);
    hide Inbox.Entries, Lifecycle.Runs, Inbox.Intents, Registry.Workers, Claims.Claims, Workspace.Artifacts, Sessions.Books;
  }

  /** Exporting a reachable state and importing it into an empty ledger, over a workspace with no file in
      the way, gives the target the same events in all nine columns, the same tables and every artifact file
      with the same contents. The import succeeds, with a clean audit, if and only if no name was
      registered twice; otherwise it ends as an audit failure with the same state. */
  lemma ArchiveRoundTrip(source: Db, target: Db, seals: Seals, createdAt: string)
    requires Inv(source) && source.events != []
    requires Export(source, seals, createdAt, true).Ok? ==>
      Compatible(target.files, Export(source, seals, createdAt, true).value.workspace)
    requires target.events == [] && target.cfg == source.cfg
    ensures Export(source, seals, createdAt, true).Ok?
    ensures var folder := Export(source, seals, createdAt, true).value;
      var after := AfterImport(target, folder, source.events);
      && Imported(target, seals, folder) == after && DecodeRows(Unpack(seals, folder).value.1) == Ok(source.events)
      && (if Registry.DuplicateErrors(source.events) == []
          then Importing(target, seals, folder).Ok?
          else Importing(target, seals, folder) == Fail("AUDIT_FAILED"))
      && after.events == source.events && after.runs == source.runs && after.intents == source.intents
      && after.inbox == source.inbox && after.claims == source.claims && after.workers == source.workers
      && after.sessions == source.sessions && after.members == source.members && after.artifacts == source.artifacts
      && Holding(after.files, target.files, source.files, source.artifacts, SortedKeys(source.artifacts.Keys))
      && (Clean(after, Receipts.RebuiltTable(source.events), true) <==> Registry.DuplicateErrors(source.events) == [])
  {
    hide Inv, Copied, Holding, Compatible, Landed, Clean, AfterImport, Unpack, DecodeRows, Replayable, ValidChain,
      Consistent, DistinctIds,
      Registry.DuplicateErrors, LedgerJsonl, Dumps, Manifest, Copy, Docs, Complete;
    Exports(source, seals, createdAt);
    var folder := Export(source, seals, createdAt, true).value;
    RebuildsSucceed(source);
    Unpacks(seals, createdAt, source.events, folder.workspace);
    ManifestVerified(seals, createdAt, source.events, folder.ledger, folder.workspace);
    Lands(source, target, folder);
    LandedClean(source, target, folder);
  }
}
