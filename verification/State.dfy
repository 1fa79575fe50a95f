/** Everything one Leira process holds: the ledger, the tables kept beside it, the workspace files
    and the process memory. `Db` is the value of that state, `Database` the object that holds it. */
module State {
  import opened Json
  import opened Ledger

  datatype RunRow = RunRow(state: string, lastEventId: string, updatedAt: string)
  datatype IntentRow = IntentRow(status: string, workerName: Option<string>, updatedAt: string, lastEventId: string)
  datatype InboxRow = InboxRow(createdAt: string, intentType: string, payload: Json, status: string)
  datatype ClaimRow = ClaimRow(claimId: string, ownerId: string, claimedAt: string, lastEventId: string)
  datatype WorkerRow = WorkerRow(registeredAt: string, lastEventId: string)
  datatype SessionRow = SessionRow(intentCount: nat, createdAt: string, lastEventId: string)
  datatype MemberRow = MemberRow(order: nat, createdAt: string, lastEventId: string)
  datatype ArtifactRow = ArtifactRow(
    intentId: string, path: string, sha256: string, size: int, createdAt: string, lastEventId: string)
  datatype ReceiptRow = ReceiptRow(firstEventId: string, lastEventId: string, eventCount: nat, updatedAt: string)

  type RunTable = map<string, RunRow>
  type IntentTable = map<string, IntentRow>
  type InboxTable = map<string, InboxRow>
  type ClaimTable = map<string, ClaimRow>
  type WorkerTable = map<string, WorkerRow>
  type SessionTable = map<string, SessionRow>
  type MemberTable = map<(string, string), MemberRow>
  type ArtifactTable = map<string, ArtifactRow>
  type ReceiptTable = map<string, ReceiptRow>

  type Bytes = seq<bv8>

  /** Artifact files by intent id and normalized relative path. */
  type Files = map<(string, string), Bytes>

  /** One call of `worker.invoke`, made when the ledger held `at` events. */
  datatype Invocation = Invocation(intentId: string, inputs: Json, at: nat)

  /** What the model leaves open: event hashing, NFC, the digest of file contents, and which ids are
      in use. */
  datatype Config = Config(hash: Hasher, nfc: Normalizer, digest: Bytes -> string, ids: iset<string>)

  datatype Db = Db(
    cfg: Config,
    events: History,
    runs: RunTable,
    intents: IntentTable,
    inbox: InboxTable,
    claims: ClaimTable,
    workers: WorkerTable,
    sessions: SessionTable,
    members: MemberTable,
    artifacts: ArtifactTable,
    files: Files,
    registry: set<string>,
    restarts: nat,
    invoked: seq<Invocation>)

  function Empty(cfg: Config): Db {
    Db(cfg, [], map[], map[], map[], map[], map[], map[], map[], map[], map[], {}, 0, [])
  }

  /** One call of `append_event`: whether the database accepts the row, and the id and time it gets. */
  datatype Attempt = Attempt(ok: bool, eventId: string, now: string)

  /** The row that follows `es`. */
  function Chained(
    cfg: Config, es: History, a: Attempt, eventType: string, workerId: string, payload: Json,
    artifactHash: Option<string>, operationId: Option<string>): Event
  {
    var draft := Event(
      a.eventId, operationId, Head(es), eventType, workerId, Written(payload), artifactHash, "", a.now);
    draft.(eventHash := cfg.hash(Hashed(draft)))
  }

  /** The next row of the state's ledger; every kernel writes as worker "kernel". */
  function NewEvent(
    db: Db, a: Attempt, eventType: string, payload: Json,
    artifactHash: Option<string>, operationId: Option<string>): Event
  {
    Chained(db.cfg, db.events, a, eventType, "kernel", payload, artifactHash, operationId)
  }

  /** A value of any Python type where the code expects a `str`; other values are recorded by `repr`. */
  datatype Arg = StrArg(s: string) | OtherArg(repr: string)

  function Recorded(x: Arg): string {
    match x case StrArg(s) => s case OtherArg(r) => r
  }

  predicate UsableName(x: Arg) {
    x.StrArg? && x.s != ""
  }

  class Database {
    const cfg: Config
    var events: History
    var runs: RunTable
    var intents: IntentTable
    var inbox: InboxTable
    var claims: ClaimTable
    var workers: WorkerTable
    var sessions: SessionTable
    var members: MemberTable
    var artifacts: ArtifactTable
    var receipts: ReceiptTable
    var files: Files
    var registry: set<string>
    var restarts: nat
    var invoked: seq<Invocation>

    constructor (cfg: Config)
      ensures View() == Empty(cfg) && receipts == map[]
    {
      this.cfg := cfg;
      events, runs, intents, inbox, claims, workers := [], map[], map[], map[], map[], map[];
      sessions, members, artifacts, receipts, files := map[], map[], map[], map[], map[];
      registry, restarts, invoked := {}, 0, [];
    }

    function View(): Db
      reads this
    {
      Db(cfg, events, runs, intents, inbox, claims, workers, sessions, members, artifacts, files, registry, restarts, invoked)
    }
  }

  datatype AppendResult = Appended(eventId: string, eventHash: string, createdAt: string) | Refused(errorType: string)

  /** The insert of `append_event`: one row chained to the head, or nothing. The document is the
      canonical payload, None when there is none. */
  method AppendRow(
    db: Database, eventType: string, workerId: string, document: Option<Json>,
    artifactHash: Option<string>, operationId: Option<string>, a: Attempt) returns (r: AppendResult)
    modifies db`events
    ensures r.Appended? <==> eventType != "" && workerId != "" && document.Some? && a.ok
    ensures r.Refused? ==> db.events == old(db.events)
    ensures eventType == "" ==> r == Refused("INVALID_EVENT_TYPE")
    ensures eventType != "" && workerId == "" ==> r == Refused("INVALID_WORKER_ID")
    ensures eventType != "" && workerId != "" && document.None? ==> r == Refused("INVALID_PAYLOAD")
    ensures eventType != "" && workerId != "" && document.Some? && !a.ok ==> r == Refused("DB_ERROR")
    ensures r.Appended? ==>
      && r.eventId == a.eventId && r.createdAt == a.now
      && db.events == old(db.events) + [Chained(db.cfg, old(db.events), a, eventType, workerId, document.value, artifactHash, operationId)]
      && r.eventHash == db.events[|old(db.events)|].eventHash
  {
    if eventType == "" { return Refused("INVALID_EVENT_TYPE"); }
    if workerId == "" { return Refused("INVALID_WORKER_ID"); }
    if document.None? { return Refused("INVALID_PAYLOAD"); }
    if !a.ok { return Refused("DB_ERROR"); }
    var draft := Event(
      a.eventId, operationId, Head(db.events), eventType, workerId, Written(document.value), artifactHash, "", a.now);
    var event := draft.(eventHash := db.cfg.hash(Hashed(draft)));
    db.events := db.events + [event];
    return Appended(a.eventId, event.eventHash, a.now);
  }

  /** `LedgerKernel.append_event`: refuses what it cannot record, otherwise chains one row. */
  method AppendEvent(
    db: Database, eventType: string, workerId: string, payload: Py,
    artifactHash: Option<string>, operationId: Option<string>, a: Attempt) returns (r: AppendResult)
    modifies db`events
    ensures r.Refused? ==> db.events == old(db.events)
    ensures r.Appended? <==> eventType != "" && workerId != "" && payload.PDict? && Serial(payload) && a.ok
    ensures eventType == "" ==> r == Refused("INVALID_EVENT_TYPE")
    ensures eventType != "" && workerId == "" ==> r == Refused("INVALID_WORKER_ID")
    ensures eventType != "" && workerId != "" && !(payload.PDict? && Serial(payload)) ==> r == Refused("INVALID_PAYLOAD")
    ensures r.Appended? ==>
      && |db.events| == |old(db.events)| + 1 && db.events[..|old(db.events)|] == old(db.events)
      && var e := db.events[|old(db.events)|];
        && Linked(db.cfg.hash, Head(old(db.events)), e)
        && (e.id, e.eventHash, e.createdAt) == (r.eventId, r.eventHash, r.createdAt) == (a.eventId, e.eventHash, a.now)
        && (e.eventType, e.workerId, e.artifactHash, e.operationId) == (eventType, workerId, artifactHash, operationId)
        && e.payload.Parsed? && e.payload == Written(e.payload.value) && Normalize(db.cfg.nfc, payload) == Some(e.payload.value)
    ensures ValidChain(db.cfg.hash, old(db.events)) ==> ValidChain(db.cfg.hash, db.events)
  {
    CanonicalAccepts(db.cfg.nfc, payload);
    hide Serial, Normalize;
    var document := Canonical(db.cfg.nfc, payload);
    r := AppendRow(db, eventType, workerId, document, artifactHash, operationId, a);
    if r.Appended? {
      Snoc(old(db.events), Chained(db.cfg, old(db.events), a, eventType, workerId, document.value, artifactHash, operationId));
    }
  }
}
