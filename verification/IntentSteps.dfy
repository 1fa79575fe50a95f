/** Intent events keep the invariant: submission, the claim of an intent, and its outcome. */
module IntentSteps {
  import opened Strings
  import opened Like
  import opened Json
  import opened Ledger
  import opened State
  import opened Payloads
  import opened Kernels
  import opened Appends
  import opened Frames
  import opened Invariant
  import opened Events
  import Inbox
  import Claims
  import Lifecycle
  import Sessions
  import Workspace
  import Receipts

  /** The status query, the table and the transition check see the same intent. */
  lemma IntentFacts(db: Db, i: string)
    requires Inv(db)
    ensures i in db.cfg.ids ==>
      Inbox.StatusQuery(db.events, i) == if i in db.intents then Some(db.intents[i].status) else None
    ensures i in db.intents <==> i in Inbox.LastTypes(db.events)
    ensures i in db.intents ==>
      i != "" && Inbox.IsIntentEvent(Inbox.LastTypes(db.events)[i])
      && db.intents[i].status == Inbox.StatusOf(Inbox.LastTypes(db.events)[i])
    ensures i in db.intents && db.intents[i].status == "RUNNING" && db.intents[i].workerName.Some?
      ==> i in Inbox.Claimants(db.events) && Inbox.Claimants(db.events)[i] == db.intents[i].workerName.value
  {
    hide Inv, Sane, FilesBacked, Accounted, RegistryKnown, Good, Inbox.Intents, Inbox.AllIntentShaped, Inbox.TransitionErrors,
      Inbox.LastTypes, Inbox.Claimants, Inbox.StatusQuery, Exact;
    Aspects(db);
    GoodShaped(db.cfg, db.events);
    GoodIntents(db.cfg, db.events);
    if i in db.cfg.ids {
      GoodExact(db.cfg, db.events, "intent_id", i);
      Inbox.QueryIsFold(db.events, i);
    }
    Inbox.RowTracksLast(db.events, i);
    Inbox.NamesNonEmpty(db.events);
  }

  /** An intent event that its checks accept keeps the invariant. */
  lemma IntentKeeps(db: Db, e: Event, m: Fields, i: string)
    requires Inv(db) && Basic(db.cfg, db.events, e) && Inbox.IsIntentEvent(e.eventType)
    requires Reads(e, m, None, Some(i), None) && i != ""
    requires Text(m, "intent_id") == Some(i) && Text(m, "status") == Some(Inbox.StatusOf(e.eventType))
    requires Inbox.LegalIntentEvent(db.events, e) && Inbox.SameWorker(db.events, e) && QuietSubmission(e)
    ensures Inv(Next(db, e))
  {
    hide Inv, Basic, Next, Inbox.LegalIntentEvent, Inbox.SameWorker, QuietSubmission, Finds, Inbox.StatusOf;
    RunShape(e, m, None, Some(i), None);
    ReceiptShape(e, m, None, Some(i), None);
    IntentShape(e, m, None, Some(i), None);
    LegalOutside(db.events, e);
    LegalFromParts(db.events, e);
    InvNext(db, e);
  }

  /** What an intent event moves when the intent is not closed. */
  lemma IntentNext(db: Db, e: Event, i: string, status: string)
    requires Inbox.IsIntentEvent(e.eventType) && Inbox.IntentId(e) == Some(i) && Inbox.StatusIn(e) == Some(status)
    requires !Inbox.Closed(db.intents, i)
    ensures Next(db, e).intents == db.intents[i := IntentRow(status, Inbox.WorkerIn(e), e.createdAt, e.id)]
    ensures !Inbox.IsSubmission(e.eventType) ==>
      Next(db, e) == Emit(db, e).(intents := db.intents[i := IntentRow(status, Inbox.WorkerIn(e), e.createdAt, e.id)])
  {
    Still(db, e);
    hide Lifecycle.RunStep, Inbox.InboxStep, Claims.ClaimStep, Sessions.BookStep, Workspace.Insert,
      Inbox.IntentId, Inbox.StatusIn, Inbox.WorkerIn;
  }

  // ---------------------------------------------------------------- submission

  /** The id drawn is new, and no key of the caller's payload is taken for one of the lookups' keys. */
  ghost predicate AllowedRequest(db: Db, r: Request) {
    && r.intentId in db.cfg.ids && r.intentId != "" && r.intentId !in db.intents && Plain(db, Recorded(r.intentType))
    && QuietValue(db.cfg.nfc, r.payload)
  }

  lemma StoredQuiet(db: Db, r: Request)
    requires QuietValue(db.cfg.nfc, r.payload) && StoredPayload(db, r).Some?
    ensures NoIdKeys(StoredPayload(db, r).value) && StoredPayload(db, r).value.Obj?
  {
    hide NormalizeEntries, NoIdKeys;
    UnrepresentableQuiet(Nfc(db, r.payloadRepr));
  }

  lemma UnrepresentableQuiet(repr: string)
    ensures NoIdKeys(Unrepresentable(repr))
  {
    var x := "unrepresentable_payload_repr";
    forall k | IsIdKey(k) ensures !Reaches(x, k) { OwnNotTaken(x, k); }
    hide Reaches;
    assert !HasKey(Str(repr), "intent_id") && !HasKey(Str(repr), "run_id") && !HasKey(Str(repr), "session_id");
  }

  /** What a submission event reads back as. */
  lemma SubmissionReads(db: Db, r: Request, stored: Json, a: Attempt)
    requires Rooted(db, a) && NoIdKeys(stored) && stored.Obj? && r.intentId in db.cfg.ids
    ensures var e, m := SubmitEvent(db, r, stored, a), Doc(SubmitEvent(db, r, stored, a));
      && Basic(db.cfg, db.events, e) && e.id == a.eventId && e.createdAt == a.now
      && Reads(e, m, None, Some(r.intentId), None)
      && Text(m, "intent_id") == Some(r.intentId) && Text(m, "worker_name") == None
      && Text(m, "intent_type") == Some(Nfc(db, Recorded(r.intentType)))
      && "payload" in m && m["payload"] == stored
      && Inbox.IsSubmission(e.eventType) && Text(m, "status") == Some(Inbox.StatusOf(e.eventType))
      && Inbox.StatusOf(e.eventType) == (if ValidateIntent(db.cfg.nfc, r.intentType, r.payload).Some? then "REJECTED" else "PENDING")
  {
    hide Rooted, Finds, Basic, NewEvent, Written, NoIdKeys, ValidateIntent;
    var error := ValidateIntent(db.cfg.nfc, r.intentType, r.payload);
    var status := if error.Some? then "REJECTED" else "PENDING";
    var m := Submission(r.intentId, Nfc(db, Recorded(r.intentType)), stored, status, error);
    SubmissionFinds(r.intentId, Nfc(db, Recorded(r.intentType)), stored, status, error);
    NewRow(db, a, if error.Some? then "intent_rejected" else "intent_submitted", m, None, None, None, Some(r.intentId), None);
  }

  lemma SubmissionLegal(db: Db, e: Event, m: Fields, i: string)
    requires Inv(db) && i !in db.intents && Inbox.IsSubmission(e.eventType)
    requires Doc(e) == m && Text(m, "intent_id") == Some(i) && i != ""
    ensures Inbox.LegalIntentEvent(db.events, e) && Inbox.SameWorker(db.events, e) && Inbox.IsIntentEvent(e.eventType)
    ensures i !in db.inbox
  {
    assert Holds(LiveTables, db);
    hide Good, Sane, FilesBacked, Accounted;
    IntentFacts(db, i);
    if i in Inbox.Entries(db.events) { Inbox.EntriesSeen(db.events, i); }
    hide Inbox.LastTypes, Inbox.Claimants, Inbox.Intents;
  }

  /** What a readable submission enters in the inbox. */
  lemma SubmissionNext(db: Db, e: Event, m: Fields, i: string, intentType: string, payload: Json, status: string)
    requires Inbox.IsSubmission(e.eventType) && Doc(e) == m && i != "" && i !in db.inbox && i !in db.intents
    requires Text(m, "intent_id") == Some(i) && Text(m, "intent_type") == Some(intentType) && Text(m, "status") == Some(status)
    requires "payload" in m && m["payload"] == payload && payload.Obj? && Text(m, "worker_name") == None
    ensures Next(db, e) == Emit(db, e).(
      inbox := db.inbox[i := InboxRow(e.createdAt, intentType, payload, status)],
      intents := db.intents[i := IntentRow(status, None, e.createdAt, e.id)])
  {
    Still(db, e);
    IntentNext(db, e, i, status);
    assert Inbox.InboxStep(db.inbox, e) == db.inbox[i := InboxRow(e.createdAt, intentType, payload, status)];
    hide Lifecycle.RunStep, Inbox.InboxStep, Inbox.IntentStep, Claims.ClaimStep, Sessions.BookStep, Workspace.Insert;
  }

  /** `submit_intent` keeps the invariant, accepted, rejected or not recorded. */
  lemma SubmitKeeps(db: Db, r: Request, a: Attempt)
    requires Inv(db) && AllowedRequest(db, r) && Usable(db.events, a)
    ensures Inv(SubmitIntent(db, r, a).0)
  {
    hide Inv, Usable, Rooted, Basic, Next, Reads, NoIdKeys, QuietValue, StoredPayload, ValidateIntent, SubmitEvent;
    var stored := StoredPayload(db, r);
    if stored.Some? && a.ok {
      StoredQuiet(db, r);
      Roots(db, a);
      SubmissionReads(db, r, stored.value, a);
      var e := SubmitEvent(db, r, stored.value, a);
      SubmissionLegal(db, e, Doc(e), r.intentId);
      IntentKeeps(db, e, Doc(e), r.intentId);
      SubmissionNext(db, e, Doc(e), r.intentId, Recorded(r.intentType), stored.value, Inbox.StatusOf(e.eventType));
    }
  }

  // ---------------------------------------------------------------- running and done

  lemma StatusNames(t: string)
    requires Inbox.IsIntentEvent(t)
    ensures Inbox.StatusOf(t) == "PENDING" <==> t == "intent_submitted"
    ensures Inbox.StatusOf(t) == "RUNNING" <==> t == "intent_claimed"
  {
  }

  lemma ClaimedReads(db: Db, i: string, w: string, a: Attempt)
    requires Rooted(db, a) && Id(db, i) && Plain(db, w)
    ensures var e, m := ClaimedEvent(db, i, w, a), Claimed(i, w);
      && Basic(db.cfg, db.events, e) && e.id == a.eventId && e.createdAt == a.now && e.eventType == "intent_claimed"
      && Doc(e) == m && Reads(e, m, None, Some(i), None)
      && Text(m, "intent_id") == Some(i) && Text(m, "worker_name") == Some(w) && Text(m, "status") == Some("RUNNING")
  {
    hide Rooted, Finds, Basic, NewEvent, Written;
    ClaimedFinds(i, w);
    NewRow(db, a, "intent_claimed", Claimed(i, w), None, None, None, Some(i), None);
  }

  /** A pending intent may be marked running, and then is. */
  lemma RunningKeeps(db: Db, i: string, w: string, a: Attempt)
    requires Inv(db) && Usable(db.events, a) && a.ok && Id(db, i) && Plain(db, w)
    requires Inbox.StatusQuery(db.events, i) == Some("PENDING")
    ensures Inv(MarkRunning(db, i, w, a))
  {
    hide Inv, Usable, Rooted, Basic, Next, Reads, ClaimedEvent, Claimed, Inbox.StatusOf, Inbox.IsIntentEvent;
    IntentFacts(db, i);
    StatusNames(Inbox.LastTypes(db.events)[i]);
    Roots(db, a);
    ClaimedReads(db, i, w, a);
    var e := ClaimedEvent(db, i, w, a);
    ClaimedLegal(db.events, e, i);
    IntentKeeps(db, e, Doc(e), i);
    IntentNext(db, e, i, "RUNNING");
  }

  lemma ClaimedLegal(es: History, e: Event, i: string)
    requires e.eventType == "intent_claimed" && Text(Doc(e), "intent_id") == Some(i) && i != ""
    requires i in Inbox.LastTypes(es) && Inbox.LastTypes(es)[i] == "intent_submitted"
    ensures Inbox.LegalIntentEvent(es, e) && Inbox.SameWorker(es, e) && QuietSubmission(e)
    ensures Inbox.IsIntentEvent(e.eventType) && Inbox.StatusOf(e.eventType) == "RUNNING" && !Inbox.IsSubmission(e.eventType)
  {
    hide Inbox.LastTypes;
  }

  lemma OutcomeReads(db: Db, i: string, w: string, success: bool, error: Option<string>, message: string, a: Attempt)
    requires Rooted(db, a) && Id(db, i) && Plain(db, w)
    ensures var e, m := OutcomeEvent(db, i, w, success, error, message, a), Doc(OutcomeEvent(db, i, w, success, error, message, a));
      && Basic(db.cfg, db.events, e) && e.id == a.eventId && e.createdAt == a.now
      && e.eventType == OutcomeType(success)
      && Reads(e, m, None, Some(i), None)
      && Text(m, "intent_id") == Some(i) && Text(m, "worker_name") == Some(w)
      && Text(m, "status") == Some(OutcomeStatus(success))
  {
    hide Rooted, Finds, Basic, NewEvent, Written;
    var t, status := OutcomeType(success), OutcomeStatus(success);
    OutcomeFinds(i, status, w, NfcOption(db, error), Nfc(db, message));
    NewRow(db, a, t, Outcome(i, status, w, NfcOption(db, error), Nfc(db, message)), None, None, None, Some(i), None);
  }

  lemma OutcomeLegal(es: History, e: Event, i: string, w: string)
    requires e.eventType == "intent_completed" || e.eventType == "intent_failed"
    requires Text(Doc(e), "intent_id") == Some(i) && i != "" && Text(Doc(e), "worker_name") == Some(w)
    requires i in Inbox.LastTypes(es) && Inbox.LastTypes(es)[i] == "intent_claimed"
    requires i in Inbox.Claimants(es) && Inbox.Claimants(es)[i] == w
    ensures Inbox.LegalIntentEvent(es, e) && Inbox.SameWorker(es, e) && QuietSubmission(e)
    ensures Inbox.IsIntentEvent(e.eventType) && !Inbox.IsSubmission(e.eventType)
    ensures Inbox.StatusOf(e.eventType) == if e.eventType == "intent_completed" then "COMPLETED" else "FAILED"
  {
    hide Inbox.LastTypes, Inbox.Claimants;
  }

  /** An outcome event for a running intent keeps the invariant and closes its row. */
  lemma OutcomeKeeps(db: Db, e: Event, m: Fields, i: string, w: string, success: bool)
    requires Inv(db) && Basic(db.cfg, db.events, e) && RunningFor(db, i, w)
    requires e.eventType == OutcomeType(success)
    requires Doc(e) == m && Reads(e, m, None, Some(i), None)
    requires Text(m, "intent_id") == Some(i) && Text(m, "worker_name") == Some(w) && Text(m, "status") == Some(OutcomeStatus(success))
    ensures Inv(Emit(db, e).(intents := db.intents[i := IntentRow(OutcomeStatus(success), Some(w), e.createdAt, e.id)]))
  {
    hide Inv, Basic, Next, Reads, Inbox.StatusOf, Inbox.IsIntentEvent;
    IntentFacts(db, i);
    StatusNames(Inbox.LastTypes(db.events)[i]);
    OutcomeLegal(db.events, e, i, w);
    IntentKeeps(db, e, m, i);
    IntentNext(db, e, i, OutcomeStatus(success));
  }

  /** A running intent may be concluded by the worker it runs for. */
  lemma DoneKeeps(db: Db, i: string, w: string, success: bool, error: Option<string>, message: string, a: Attempt)
    requires Inv(db) && Usable(db.events, a) && a.ok && Id(db, i) && Plain(db, w) && RunningFor(db, i, w)
    ensures Inv(MarkDone(db, i, w, success, error, message, a))
  {
    hide Inv, Usable, Rooted, Basic, Reads, OutcomeEvent, OutcomeType, OutcomeStatus, RunningFor, Plain, Text;
    Roots(db, a);
    OutcomeReads(db, i, w, success, error, message, a);
    var e := OutcomeEvent(db, i, w, success, error, message, a);
    OutcomeKeeps(db, e, Doc(e), i, w, success);
  }
}
