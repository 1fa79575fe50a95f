/** The events the kernels append: each is a new row of the right shape, and what it reads back as. */
module Events {
  import opened Strings
  import opened Like
  import opened Json
  import opened Ledger
  import opened State
  import opened Payloads
  import opened Kernels
  import opened Appends
  import opened Invariant
  import Inbox
  import Claims
  import Lifecycle
  import Sessions
  import Workspace
  import Receipts
  import Lookup

  /** The caller's argument is already in normal form. */
  ghost predicate Plain(db: Db, s: string) {
    Nfc(db, s) == s
  }

  /** The id is one of those in use, and in normal form. */
  ghost predicate Id(db: Db, s: string) {
    s in db.cfg.ids && Plain(db, s)
  }

  lemma {:induction false} HeadNonEmpty(cfg: Config, es: History)
    requires Sane(cfg) && ValidChain(cfg.hash, es)
    ensures Head(es) != ""
  {
  }

  /** The attempt succeeds, with a ledger it can be chained to. */
  ghost predicate Rooted(db: Db, a: Attempt) {
    a.ok && Usable(db.events, a) && Sane(db.cfg) && Head(db.events) != ""
  }

  lemma Roots(db: Db, a: Attempt)
    requires Inv(db) && Usable(db.events, a) && a.ok
    ensures Rooted(db, a)
  {
    hide Good, Usable;
    assert Holds(OpenFunctions, db) && Holds(LegalHistory, db);
    GoodChain(db.cfg, db.events);
    HeadNonEmpty(db.cfg, db.events);
  }

  /** The payload of `e` is `m`, and the three lookups find in it what is given. */
  ghost predicate Reads(e: Event, m: Fields, run: Option<string>, intent: Option<string>, session: Option<string>) {
    e.payload == Written(Obj(m)) && Finds(m, run, intent, session)
  }

  lemma ReadsMention(e: Event, m: Fields, run: Option<string>, intent: Option<string>, session: Option<string>)
    requires Reads(e, m, run, intent, session)
    ensures IsDoc(e) && Doc(e) == m
    ensures forall s :: Mentioned(e, "run_id", s) <==> run == Some(s)
    ensures forall s :: Mentioned(e, "intent_id", s) <==> intent == Some(s)
    ensures forall s :: Mentioned(e, "session_id", s) <==> session == Some(s)
  {
    hide Mentions;
  }

  /** The id, if there is one, is an id in use. */
  ghost predicate InUse(ids: iset<string>, id: Option<string>) {
    id.Some? ==> id.value in ids
  }

  /** Looking up an id in use finds the event exactly when it is the id the event mentions under the key. */
  lemma LegibleUnder(ids: iset<string>, e: Event, k: string, id: Option<string>)
    requires e.payload.Parsed? && e.payload == Written(e.payload.value) && StraightKeys(e.payload.value)
    requires IsIdKey(k) && Distinguished(ids) && InUse(ids, id) && forall v :: Mentioned(e, k, v) <==> id == Some(v)
    ensures forall s :: (Mentioned(e, k, s) ==> s in ids) && (s in ids ==> (Refers(e, k, s) <==> Mentioned(e, k, s)))
  {
    hide Mentioned, Refers, Fits, Searchable, StraightKeys, Written;
    forall s | s in ids ensures Refers(e, k, s) <==> Mentioned(e, k, s) {
      Lookup.LookupIsMention(e, k, s);
      if id.Some? && id.value == s { SelfFits(s); }
    }
  }

  lemma ReadsLegible(
    ids: iset<string>, e: Event, m: Fields, run: Option<string>, intent: Option<string>, session: Option<string>)
    requires Reads(e, m, run, intent, session) && Distinguished(ids)
    requires InUse(ids, run) && InUse(ids, intent) && InUse(ids, session)
    ensures Legible(ids, e)
  {
    ReadsMention(e, m, run, intent, session);
    hide Mentioned, Refers, StraightKeys, Distinguished, Only, Written;
    LegibleUnder(ids, e, "run_id", run);
    LegibleUnder(ids, e, "intent_id", intent);
    LegibleUnder(ids, e, "session_id", session);
  }

  /** A row with a document the lookups can read. */
  lemma NewRow(
    db: Db, a: Attempt, t: string, m: Fields, artifactHash: Option<string>, operationId: Option<string>,
    run: Option<string>, intent: Option<string>, session: Option<string>)
    requires Rooted(db, a) && t != "" && Finds(m, run, intent, session)
    requires InUse(db.cfg.ids, run) && InUse(db.cfg.ids, intent) && InUse(db.cfg.ids, session)
    ensures Basic(db.cfg, db.events, NewEvent(db, a, t, Obj(m), artifactHash, operationId))
    ensures var e := NewEvent(db, a, t, Obj(m), artifactHash, operationId);
      && Doc(e) == m && Reads(e, m, run, intent, session) && e.eventType == t && e.id == a.eventId && e.createdAt == a.now
      && e.operationId == operationId
  {
    hide Finds, Distinguished, Legible;
    ReadsLegible(db.cfg.ids, NewEvent(db, a, t, Obj(m), artifactHash, operationId), m, run, intent, session);
  }

  lemma RunShape(e: Event, m: Fields, run: Option<string>, intent: Option<string>, session: Option<string>)
    requires Reads(e, m, run, intent, session)
    requires Lifecycle.IsRunEvent(e.eventType) ==> Name(m, "run_id").Some? && run == Name(m, "run_id")
    requires !Lifecycle.IsRunEvent(e.eventType) ==> run.None?
    ensures Lifecycle.RunShaped(e)
    ensures !Lifecycle.IsRunEvent(e.eventType) ==> Lifecycle.RunId(e).None?
  {
    ReadsMention(e, m, run, intent, session);
    if Lifecycle.RunId(e).Some? { Receipts.Named(e, "run_id", Lifecycle.RunId(e).value); }
    hide Mentioned, Only, Lifecycle.IsRunEvent;
  }

  /** The auditor files the event under the intent the lookup finds. */
  predicate Filed(m: Fields, intent: Option<string>) {
    Receipts.DirectIn(m) == if intent.Some? && intent.value != "" then intent else None
  }

  lemma ReceiptShape(e: Event, m: Fields, run: Option<string>, intent: Option<string>, session: Option<string>)
    requires Reads(e, m, run, intent, session) && Filed(m, intent)
    ensures Receipts.ReceiptShaped(e)
  {
    ReadsMention(e, m, run, intent, session);
    hide Mentioned, Only, Receipts.DirectIn;
  }

  lemma IntentShape(e: Event, m: Fields, run: Option<string>, intent: Option<string>, session: Option<string>)
    requires Reads(e, m, run, intent, session) && Inbox.IsIntentEvent(e.eventType)
    requires intent.Some? && intent == Name(m, "intent_id") && Text(m, "status") == Some(Inbox.StatusOf(e.eventType))
    ensures Inbox.IntentShaped(e)
  {
    ReadsMention(e, m, run, intent, session);
    hide Mentioned, Only, Inbox.IsIntentEvent, Inbox.StatusOf;
  }

  lemma QuietRow(db: Db, e: Event, m: Fields, intent: Option<string>, session: Option<string>)
    requires Inv(db) && Basic(db.cfg, db.events, e) && Noise(e.eventType)
    requires Reads(e, m, None, intent, session) && Filed(m, intent)
    ensures Inv(Emit(db, e))
  {
    RunShape(e, m, None, intent, session);
    ReceiptShape(e, m, None, intent, session);
    NoiseFamilies(e.eventType);
    LegalOutside(db.events, e);
    LegalFromParts(db.events, e);
    InvNext(db, e);
    Still(db, e);
    hide Inv, Next;
    assert Next(db, e) == Emit(db, e);
  }

  /** A quiet event: no check looks at it and no table moves. */
  lemma Quiet(db: Db, a: Attempt, t: string, m: Fields, operationId: Option<string>, intent: Option<string>, session: Option<string>)
    requires Inv(db) && Usable(db.events, a) && a.ok && t != "" && Noise(t)
    requires Finds(m, None, intent, session) && Filed(m, intent) && InUse(db.cfg.ids, intent) && InUse(db.cfg.ids, session)
    ensures Inv(Emit(db, NewEvent(db, a, t, Obj(m), None, operationId)))
  {
    hide Inv, Usable, Noise, Finds, Filed, Emit, Rooted;
    Roots(db, a);
    NewRow(db, a, t, m, None, operationId, None, intent, session);
    QuietRow(db, NewEvent(db, a, t, Obj(m), None, operationId), m, intent, session);
  }

  lemma NoiseFamilies(t: string)
    requires Noise(t)
    ensures !Lifecycle.IsRunEvent(t) && !Inbox.IsIntentEvent(t) && !Inbox.IsSubmission(t) && !Claims.IsClaimEvent(t)
    ensures t != "worker_registered" && !IsSessionEvent(t) && t != Workspace.WRITTEN
  {
  }

  /** The parts of legality, put together. */
  lemma LegalFromParts(es: History, e: Event)
    requires Lifecycle.LegalRunEvent(es, e) && Workspace.LegalArtifactEvent(es, e) && Receipts.LegalBridge(es, e)
    requires Inbox.LegalIntentEvent(es, e) && Inbox.SameWorker(es, e) && Inbox.IntentShaped(e) && QuietSubmission(e)
    requires Claims.LegalClaimEvent(es, e) && Sessions.LegalSessionEvent(es, e) && Sessions.SessionShaped(e)
    requires Workspace.LegalFileEvent(es, e) && Lifecycle.RunShaped(e) && Receipts.ReceiptShaped(e)
    ensures Legal(es, e) && Shaped(e)
  {
    hide Lifecycle.LegalRunEvent, Inbox.LegalIntentEvent, Inbox.SameWorker, Claims.LegalClaimEvent,
      Sessions.LegalSessionEvent, Workspace.LegalFileEvent, Workspace.LegalArtifactEvent, Receipts.LegalBridge,
      Lifecycle.RunShaped, Inbox.IntentShaped, Sessions.SessionShaped, Receipts.ReceiptShaped, QuietSubmission;
  }

  // ---------------------------------------------------------------- the rejections

  lemma RejectClaimKeeps(db: Db, i: string, owner: Arg, error: string, a: Attempt)
    requires Inv(db) && Usable(db.events, a) && Id(db, i)
    ensures Inv(RejectClaim(db, i, owner, error, a).0)
  {
    hide Inv, Usable, Finds, Emit, NewEvent;
    if a.ok {
      var m := ClaimRejected(Nfc(db, i), Nfc(db, Recorded(owner)), error);
      ClaimRejectedFinds(Nfc(db, i), Nfc(db, Recorded(owner)), error);
      Quiet(db, a, "intent_claim_rejected", m, None, Some(Nfc(db, i)), None);
    }
  }

  lemma RejectReleaseKeeps(db: Db, i: string, owner: Arg, claim: Option<string>, error: string, a: Attempt)
    requires Inv(db) && Usable(db.events, a) && Id(db, i)
    ensures Inv(RejectRelease(db, i, owner, claim, error, a).0)
  {
    hide Inv, Usable, Finds, Emit, NewEvent;
    if a.ok {
      var m := ReleaseRejected(Nfc(db, i), Nfc(db, Recorded(owner)), claim, error);
      ReleaseRejectedFinds(Nfc(db, i), Nfc(db, Recorded(owner)), claim, error);
      Quiet(db, a, "intent_release_rejected", m, None, Some(Nfc(db, i)), None);
    }
  }

  lemma RejectRegistrationKeeps(db: Db, name: Arg, error: string, a: Attempt)
    requires Inv(db) && Usable(db.events, a)
    ensures Inv(RejectRegistration(db, name, error, a))
  {
    hide Inv, Usable, Finds, Emit, NewEvent;
    if a.ok {
      var m := Registration(Nfc(db, Recorded(name)), "REJECTED", Some(error));
      RegistrationFinds(Nfc(db, Recorded(name)), "REJECTED", Some(error));
      Quiet(db, a, "worker_registration_rejected", m, None, None, None);
    }
  }

  lemma RejectMemberKeeps(db: Db, s: string, i: string, error: string, a: Attempt)
    requires Inv(db) && Usable(db.events, a) && Id(db, s) && Id(db, i)
    ensures Inv(RejectMember(db, s, i, error, a).0)
  {
    hide Inv, Usable, Finds, Emit, NewEvent;
    if a.ok {
      var m := SessionMember(Nfc(db, s), Nfc(db, i), Some(error));
      MemberFinds(Nfc(db, s), Nfc(db, i), Some(error));
      Quiet(db, a, "session_intent_rejected", m, None, Some(Nfc(db, i)), Some(Nfc(db, s)));
    }
  }

  /** What is recorded of a caller's value carries none of the searched keys. */
  ghost predicate QuietValue(nfc: Normalizer, v: Py) {
    Normalize(nfc, v).Some? ==> NoIdKeys(Normalize(nfc, v).value)
  }

  lemma RejectWriteKeeps(db: Db, i: string, path: Py, error: string, a: Attempt)
    requires Inv(db) && Usable(db.events, a) && Id(db, i)
    requires QuietValue(db.cfg.nfc, path)
    ensures Inv(RejectWrite(db, i, path, error, a))
  {
    hide Inv, Usable, Finds, Emit, NewEvent, NoIdKeys, Normalize;
    var shown := Normalize(db.cfg.nfc, path);
    if a.ok && shown.Some? {
      var m := FileRejected(Nfc(db, i), shown.value, error);
      FileRejectedFinds(Nfc(db, i), shown.value, error);
      Quiet(db, a, "artifact_write_rejected", m, Some(i), Some(Nfc(db, i)), None);
    }
  }

  lemma ValidateKeeps(db: Db, op: string, a: Attempt)
    requires Inv(db) && Usable(db.events, a)
    ensures Inv(ValidateOperation(db, op, a).0)
  {
    hide Inv, Usable, Finds, Emit, NewEvent;
    if a.ok {
      ValidatedFinds(Nfc(db, op));
      Quiet(db, a, "operation_validated", Validated(Nfc(db, op)), Some(op), None, None);
    }
  }

  lemma SnapshotFiled(kind: string, snapshot: string, i: string, rest: Fields)
    requires NoIdKeys(Obj(rest))
    ensures Filed(Snapshot(kind, snapshot, i, rest), Some(i))
  {
    hide NoIdKeys;
    var m := Snapshot(kind, snapshot, i, rest);
    assert Text(Sub(m, "content"), "intent_id") == Some(i);
  }

  lemma CaptureKeeps(db: Db, kind: Kind, i: string, o: Observation)
    requires Inv(db) && Usable(db.events, o.a) && NoIdKeys(Obj(o.content)) && Id(db, i)
    ensures Inv(Capture(db, kind, i, o).0)
  {
    hide Inv, Usable, Finds, Filed, Snapshot, Emit, NewEvent, NoIdKeys;
    if o.a.ok {
      SnapshotFiled(KindName(kind), o.id, Nfc(db, i), o.content);
      SnapshotFinds(KindName(kind), o.id, Nfc(db, i), o.content);
      Quiet(db, o.a, CaptureType(kind, o.error.Some?), Snapshot(KindName(kind), o.id, Nfc(db, i), o.content),
            Some(i), Some(Nfc(db, i)), None);
    }
  }
}
