/** Artifact writes keep the invariant. */
module FileSteps {
  import opened Strings
  import opened Like
  import opened Json
  import opened Ledger
  import opened State
  import opened Payloads
  import opened Paths
  import opened Kernels
  import opened Appends
  import opened Invariant
  import opened Events
  import opened IntentSteps
  import opened RegistrySteps
  import Inbox
  import Claims
  import Lifecycle
  import Registry
  import Sessions
  import Workspace
  import Receipts

  // ---------------------------------------------------------------- files

  lemma BackedMore(digest: Bytes -> string, files: Files, key: (string, string), content: Bytes, row: ArtifactRow)
    requires Workspace.Backed(digest, files, row) && key !in files
    ensures Workspace.Backed(digest, files[key := content], row)
  {
    hide NormalizeRelativePath;
  }

  /** A new file disturbs no row. */
  lemma FileCreated(db: Db, key: (string, string), content: Bytes)
    requires Inv(db) && key !in db.files
    ensures Inv(db.(files := db.files[key := content]))
  {
    hide Inv, Holds, Core, Accounted, Sane, Workspace.Backed, RegistryKnown;
    Aspects(db);
    var after := db.(files := db.files[key := content]);
    CoreIgnores(db, after);
    forall a | a in db.artifacts ensures Workspace.Backed(db.cfg.digest, after.files, db.artifacts[a]) {
      BackedMore(db.cfg.digest, db.files, key, content, db.artifacts[a]);
    }
    RegistryIgnores(db, after);
    FromAspects(after);
  }

  /** A path no file has yet is taken by no row. */
  lemma NotTaken(db: Db, i: string, p: string)
    requires FilesBacked(db) && NormalizeRelativePath(p) == Path(p) && (i, p) !in db.files
    ensures !Workspace.Taken(db.artifacts, i, p)
  {
    hide NormalizeRelativePath;
  }

  lemma LettersAscii(x: string)
    requires Spelled(x)
    ensures Ascii(x)
  {
  }

  /** Accepted paths are ASCII. */
  lemma AcceptedAscii(p: string)
    requires NormalizeRelativePath(p).Path?
    ensures Ascii(NormalizeRelativePath(p).normal)
  {
    AcceptedIsLegal(p);
    var n := NormalizeRelativePath(p).normal;
    forall k | 0 <= k < |n| ensures n[k] < '\U{80}' {
      assert n[k] in n;
      JoinedCharacters(Split(n), n[k]);
      if n[k] != '/' {
        var j :| 0 <= j < |Split(n)| && n[k] in Split(n)[j];
        LettersAscii(Split(n)[j]);
      }
    }
  }

  // ---------------------------------------------------------------- the event

  lemma WrittenReads(db: Db, i: string, p: string, content: Bytes, artifact: string, a: Attempt)
    requires Rooted(db, a) && i != "" && Id(db, i) && Plain(db, p)
    ensures var e, m := FileEvent(db, i, p, content, artifact, a), FileWritten(artifact, i, p, db.cfg.digest(content), |content|);
      && Basic(db.cfg, db.events, e) && e.id == a.eventId && e.createdAt == a.now && e.eventType == Workspace.WRITTEN
      && Doc(e) == m && Reads(e, m, None, Some(i), None) && Filed(m, Some(i))
  {
    hide Rooted, Finds, Basic, NewEvent, Written;
    FileFinds(artifact, i, p, db.cfg.digest(content), |content|);
    NewRow(db, a, Workspace.WRITTEN, FileWritten(artifact, i, p, db.cfg.digest(content), |content|), Some(db.cfg.digest(content)), Some(i), None, Some(i), None);
  }

  lemma WrittenFields(e: Event, artifact: string, i: string, p: string, d: string, n: int)
    requires e.eventType == Workspace.WRITTEN && Doc(e) == FileWritten(artifact, i, p, d, n)
    ensures Workspace.Describes(e)
    ensures Workspace.Inserted(e) == Some(Workspace.Descriptor(artifact, ArtifactRow(i, p, d, n, e.createdAt, e.id)))
    ensures artifact != "" && i != "" && p != "" && d != "" && n >= 0 ==> Workspace.CarriesFile(e)
  {
  }

  lemma WrittenLegal(es: History, e: Event, artifact: string, i: string, p: string, d: string, n: int)
    requires e.eventType == Workspace.WRITTEN && Doc(e) == FileWritten(artifact, i, p, d, n)
    requires artifact != "" && i != "" && p != "" && d != "" && n >= 0 && NormalizeRelativePath(p) == Path(p)
    requires artifact !in Workspace.Artifacts(es) && !Workspace.Taken(Workspace.Artifacts(es), i, p)
    ensures Workspace.LegalFileEvent(es, e)
    ensures forall t: ArtifactTable :: Workspace.Insert(t, e) == t[artifact := ArtifactRow(i, p, d, n, e.createdAt, e.id)]
  {
    WrittenFields(e, artifact, i, p, d, n);
    hide Workspace.Describes, Workspace.Inserted, Workspace.CarriesFile, NormalizeRelativePath, Workspace.Artifacts,
      Workspace.Taken, FileWritten;
  }

  lemma WrittenCore(db: Db, e: Event, m: Fields, i: string)
    requires Inv(db) && Basic(db.cfg, db.events, e) && e.eventType == Workspace.WRITTEN
    requires Reads(e, m, None, Some(i), None) && Filed(m, Some(i)) && Workspace.LegalFileEvent(db.events, e)
    ensures Core(Next(db, e)) && Next(db, e) == Emit(db, e).(artifacts := Workspace.Insert(db.artifacts, e))
  {
    hide *;
    Aspects(db);
    WrittenShaped(db.events, e, m, i);
    CoreNext(db, e);
    WrittenNext(db, e);
  }

  /** No check objects to a file event that the file check accepts. */
  lemma WrittenShaped(es: History, e: Event, m: Fields, i: string)
    requires e.eventType == Workspace.WRITTEN && Workspace.LegalFileEvent(es, e)
    requires Reads(e, m, None, Some(i), None) && Filed(m, Some(i))
    ensures Shaped(e) && Invariant.Legal(es, e)
  {
    hide Workspace.LegalFileEvent, Shaped, Invariant.Legal, Reads, Filed;
    RunShape(e, m, None, Some(i), None);
    ReceiptShape(e, m, None, Some(i), None);
    LegalOutside(es, e);
    LegalFromParts(es, e);
  }

  lemma WrittenNext(db: Db, e: Event)
    requires e.eventType == Workspace.WRITTEN
    ensures Next(db, e) == Emit(db, e).(artifacts := Workspace.Insert(db.artifacts, e))
  {
    Still(db, e);
    hide Registry.WorkerStep, Inbox.InboxStep, Inbox.IntentStep, Claims.ClaimStep, Sessions.BookStep, Workspace.Insert;
  }

  lemma ArtifactsSynced(db: Db)
    requires Inv(db)
    ensures db.artifacts == Workspace.Artifacts(db.events) && FilesBacked(db)
  {
    assert Holds(LiveTables, db) && Holds(StoredFiles, db);
    hide Good, FilesBacked, Accounted, Sane, RegistryKnown;
  }

  lemma DigestNonEmpty(db: Db, content: Bytes)
    requires Inv(db)
    ensures db.cfg.digest(content) != ""
  {
    assert Holds(OpenFunctions, db);
    hide Core, FilesBacked, Accounted, RegistryKnown;
  }

  /** The state after the row for a stored file. */
  function WithRow(db: Db, e: Event, artifact: string, row: ArtifactRow): Db {
    Emit(db, e).(artifacts := db.artifacts[artifact := row])
  }

  lemma RecordedInv(db: Db, e: Event, artifact: string, row: ArtifactRow)
    requires Inv(db) && Core(WithRow(db, e, artifact, row)) && e.eventType == Workspace.WRITTEN
    requires Workspace.Backed(db.cfg.digest, db.files, row)
    ensures Inv(WithRow(db, e, artifact, row))
  {
    hide Inv, Holds, Core, Accounted, Sane, Workspace.Backed, Registry.DuplicateErrors;
    Aspects(db);
    InvokedStays(db.events, db.invoked, e);
    if db.restarts == 0 { NoDuplicate(db.events, e); }
    FromAspects(WithRow(db, e, artifact, row));
  }

  /** The file is in place and its row is recorded. */
  lemma WrittenKeeps(db: Db, i: string, p: string, content: Bytes, artifact: string, a: Attempt)
    requires Inv(db) && Usable(db.events, a) && a.ok && i != "" && Id(db, i) && Plain(db, p) && p != ""
    requires NormalizeRelativePath(p) == Path(p) && artifact != "" && artifact !in db.artifacts
    requires !Workspace.Taken(db.artifacts, i, p) && (i, p) in db.files && db.files[(i, p)] == content
    ensures Inv(WithRow(db, FileEvent(db, i, p, content, artifact, a), artifact,
                         ArtifactRow(i, p, db.cfg.digest(content), |content|, a.now, a.eventId)))
  {
    hide Inv, Usable, Rooted, Basic, Next, Reads, FileWritten, Filed, FileEvent, Workspace.LegalFileEvent, Core, Plain, Workspace.Insert,
      NormalizeRelativePath, Workspace.Taken, FilesBacked;
    var e, d := FileEvent(db, i, p, content, artifact, a), db.cfg.digest(content);
    var row := ArtifactRow(i, p, d, |content|, a.now, a.eventId);
    Roots(db, a);
    WrittenReads(db, i, p, content, artifact, a);
    ArtifactsSynced(db);
    DigestNonEmpty(db, content);
    WrittenLegal(db.events, e, artifact, i, p, d, |content|);
    WrittenCore(db, e, Doc(e), i);
    RecordedInv(db, e, artifact, row);
  }

  /** `write_artifact` keeps the invariant whatever is refused or fails on the way. */
  lemma WriteKeeps(db: Db, i: string, path: Py, content: Option<Bytes>, artifact: string, a: Attempt)
    requires Inv(db) && Usable(db.events, a) && i != "" && Id(db, i) && artifact != "" && artifact !in db.artifacts
    requires QuietValue(db.cfg.nfc, path)
    ensures Inv(WriteArtifact(db, i, path, content, artifact, a).0)
  {
    hide Inv, Usable, Rooted, Plain, FileEvent, RejectWrite, QuietValue, NormalizeRelativePath, Workspace.Taken, FilesBacked;
    forall error ensures Inv(RejectWrite(db, i, path, error, a)) { RejectWriteKeeps(db, i, path, error, a); }
    if content.Some? && CheckedPath(path).Path? {
      var p := CheckedPath(path).normal;
      NormalPath(db, path.s);
      if (i, p) !in db.files {
        FileCreated(db, (i, p), content.value);
        ArtifactsSynced(db);
        NotTaken(db, i, p);
        var stored := db.(files := db.files[(i, p) := content.value]);
        if a.ok { StoredKeeps(db, stored, i, p, content.value, artifact, a); }
      }
    }
  }

  lemma StoredKeeps(db: Db, stored: Db, i: string, p: string, content: Bytes, artifact: string, a: Attempt)
    requires stored == db.(files := db.files[(i, p) := content]) && Inv(stored)
    requires Usable(db.events, a) && a.ok && i != "" && Id(db, i) && Plain(db, p) && p != ""
    requires NormalizeRelativePath(p) == Path(p) && artifact != "" && artifact !in db.artifacts && !Workspace.Taken(db.artifacts, i, p)
    ensures Inv(Emit(stored, FileEvent(stored, i, p, content, artifact, a)).(
      artifacts := db.artifacts[artifact := ArtifactRow(i, p, db.cfg.digest(content), |content|, a.now, a.eventId)]))
  {
    hide Inv, Usable, Rooted, FileEvent, NormalizeRelativePath, Workspace.Taken;
    WrittenKeeps(stored, i, p, content, artifact, a);
  }

  lemma NormalPath(db: Db, path: string)
    requires Inv(db) && NormalizeRelativePath(path).Path?
    ensures var p := NormalizeRelativePath(path).normal; Plain(db, p) && p != "" && NormalizeRelativePath(p) == Path(p)
  {
    assert Holds(OpenFunctions, db);
    NormalizationIdempotent(path);
    AcceptedAscii(path);
    hide NormalizeRelativePath, Core, FilesBacked, Accounted, RegistryKnown;
    AcceptedNonEmpty(path);
  }

  lemma AcceptedNonEmpty(path: string)
    requires NormalizeRelativePath(path).Path?
    ensures NormalizeRelativePath(path).normal != ""
  {
  }

  // ---------------------------------------------------------------- the empty intent id

  lemma FileFields(db: Db, i: string, p: string, content: Bytes, artifact: string, a: Attempt)
    requires Rooted(db, a) && Id(db, i) && Plain(db, p)
    ensures var e := FileEvent(db, i, p, content, artifact, a);
      e.eventType == Workspace.WRITTEN && Doc(e) == FileWritten(artifact, i, p, db.cfg.digest(content), |content|)
  {
    hide Rooted, Finds, Basic, NewEvent, Written;
    FileFinds(artifact, i, p, db.cfg.digest(content), |content|);
    NewRow(db, a, Workspace.WRITTEN, FileWritten(artifact, i, p, db.cfg.digest(content), |content|), Some(db.cfg.digest(content)), Some(i), None, Some(i), None);
  }

  lemma CarriesExactly(e: Event, artifact: string, i: string, p: string, d: string, n: int)
    requires e.eventType == Workspace.WRITTEN && Doc(e) == FileWritten(artifact, i, p, d, n)
    requires artifact != "" && p != "" && d != "" && n >= 0
    ensures Workspace.CarriesFile(e) <==> i != ""
  {
  }

  lemma SchemaStep(es: History, e: Event)
    requires Workspace.FileSchemaErrors(es) == [] && e.eventType == Workspace.WRITTEN
    ensures Workspace.FileSchemaErrors(es + [e]) == [] <==> Workspace.CarriesFile(e)
  {
    hide Workspace.CarriesFile;
    Snoc(es, e);
  }

  /** The workspace takes any intent id, the schema check does not take an empty one: a write that
      succeeds leaves the check clean if and only if the intent id is not empty. */
  lemma WriteSchemaExact(db: Db, i: string, path: Py, content: Option<Bytes>, artifact: string, a: Attempt)
    requires Inv(db) && Usable(db.events, a) && Id(db, i) && artifact != ""
    requires WriteArtifact(db, i, path, content, artifact, a).1.Wrote?
    ensures Workspace.FileSchemaErrors(WriteArtifact(db, i, path, content, artifact, a).0.events) == [] <==> i != ""
  {
    hide Inv, Usable, Rooted, Plain, FileEvent, RejectWrite, NormalizeRelativePath, Workspace.FileSchemaErrors,
      Workspace.CarriesFile, FileWritten;
    var p := CheckedPath(path).normal;
    NormalPath(db, path.s);
    FileCreated(db, (i, p), content.value);
    var stored := db.(files := db.files[(i, p) := content.value]);
    var e := FileEvent(stored, i, p, content.value, artifact, a);
    IdSame(db, stored, i);
    PlainSame(db, stored, p);
    Roots(stored, a);
    FileFields(stored, i, p, content.value, artifact, a);
    DigestNonEmpty(stored, content.value);
    CarriesExactly(e, artifact, i, p, stored.cfg.digest(content.value), |content.value|);
    SchemaClean(db);
    SchemaStep(db.events, e);
  }

  lemma PlainSame(db: Db, after: Db, s: string)
    requires Plain(db, s) && after.cfg == db.cfg
    ensures Plain(after, s)
  {
  }

  lemma IdSame(db: Db, after: Db, s: string)
    requires Id(db, s) && after.cfg == db.cfg
    ensures Id(after, s)
  {
  }

  lemma SchemaClean(db: Db)
    requires Inv(db)
    ensures Workspace.FileSchemaErrors(db.events) == []
  {
    assert Holds(LegalHistory, db);
    hide FilesBacked, Accounted, Sane, RegistryKnown, Synced, Good, Workspace.LegalFiles;
    GoodRest(db.cfg, db.events);
    Workspace.LegalRebuild(db.events);
  }
}
