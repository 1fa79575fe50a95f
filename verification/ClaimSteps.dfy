/** Claim events keep the invariant, and what the live claim table then guarantees. */
module ClaimSteps {
  import opened Strings
  import opened Like
  import opened Json
  import opened Ledger
  import opened State
  import opened Payloads
  import opened Kernels
  import opened Appends
  import opened Invariant
  import opened Events
  import opened IntentSteps
  import Inbox
  import Claims
  import Lifecycle
  import Sessions
  import Workspace
  import Receipts

  /** The active claim, replayed from the ledger, is the table's row. */
  lemma ClaimFacts(db: Db, i: string)
    requires Inv(db)
    ensures i in db.cfg.ids ==> (ActiveClaim(db, i).Some? <==> i in db.claims)
    ensures i in db.claims ==> i != ""
    ensures i in db.claims && i in db.cfg.ids ==> ActiveClaim(db, i) == Some(Claims.ClaimInfo(i, db.claims[i]))
  {
    assert Holds(LiveTables, db) && Holds(LegalHistory, db);
    hide Sane, FilesBacked, Accounted, Good, Claims.Replay, Claims.EventsOf, Claims.Looked, Claims.Claims, Exact;
    if i in db.cfg.ids {
      GoodExact(db.cfg, db.events, "intent_id", i);
      Claims.LookedIsAll(db.events, i);
    }
    Claims.NoEmptyName(db.events);
    if i == "" { Claims.NothingUnnamed(db.events); } else { Claims.TableIsReplay(db.events, i); }
  }

  lemma ClaimFamily(t: string)
    requires Claims.IsClaimEvent(t)
    ensures !Inbox.IsIntentEvent(t) && !Inbox.IsSubmission(t) && !Lifecycle.IsRunEvent(t)
    ensures t != "worker_registered" && !IsSessionEvent(t) && t != Workspace.WRITTEN
  {
  }

  lemma ClaimKeeps(db: Db, e: Event, m: Fields, i: string)
    requires Inv(db) && Basic(db.cfg, db.events, e) && Claims.IsClaimEvent(e.eventType)
    requires Reads(e, m, None, Some(i), None) && Filed(m, Some(i)) && Claims.LegalClaimEvent(db.events, e)
    ensures Inv(Next(db, e))
  {
    hide Inv, Basic, Next, Claims.LegalClaimEvent, Finds, Filed;
    ClaimFamily(e.eventType);
    RunShape(e, m, None, Some(i), None);
    ReceiptShape(e, m, None, Some(i), None);
    LegalOutside(db.events, e);
    LegalFromParts(db.events, e);
    InvNext(db, e);
  }

  lemma ClaimNext(db: Db, e: Event)
    requires Claims.IsClaimEvent(e.eventType)
    ensures Next(db, e) == Emit(db, e).(claims := Claims.ClaimStep(db.claims, e))
  {
    ClaimFamily(e.eventType);
    Still(db, e);
    hide Claims.IsClaimEvent, Inbox.InboxStep, Inbox.IntentStep, Claims.ClaimStep, Sessions.BookStep, Workspace.Insert;
  }

  lemma ChangeReads(db: Db, t: string, claim: string, i: string, owner: string, action: string, a: Attempt)
    requires Rooted(db, a) && t != "" && i != "" && i in db.cfg.ids
    ensures var m := ClaimChange(claim, i, owner, action); var e := Say(db, a, t, m);
      && Basic(db.cfg, db.events, e) && e.id == a.eventId && e.createdAt == a.now && e.eventType == t && Doc(e) == m
      && Reads(e, m, None, Some(i), None) && Filed(m, Some(i))
      && Text(m, "intent_id") == Some(i) && Text(m, "claim_id") == Some(claim) && Text(m, "owner_id") == Some(owner)
  {
    hide Rooted, Finds, Basic, NewEvent, Written;
    ClaimFinds(claim, i, owner, action);
    NewRow(db, a, t, ClaimChange(claim, i, owner, action), None, None, None, Some(i), None);
  }

  lemma EstablishedStep(es: History, t: ClaimTable, e: Event, claim: string, i: string, owner: string)
    requires e.eventType == Claims.ESTABLISHED && i != "" && claim != "" && owner != "" && i !in t && t == Claims.Claims(es)
    requires Text(Doc(e), "intent_id") == Some(i) && Text(Doc(e), "claim_id") == Some(claim)
    requires Text(Doc(e), "owner_id") == Some(owner)
    ensures Claims.LegalClaimEvent(es, e) && Claims.ClaimStep(t, e) == t[i := ClaimRow(claim, owner, e.createdAt, e.id)]
  {
    hide Claims.Claims;
  }

  lemma ReleasedStep(es: History, t: ClaimTable, e: Event, i: string)
    requires e.eventType == Claims.RELEASED && i != "" && i in t && t == Claims.Claims(es)
    requires Text(Doc(e), "intent_id") == Some(i) && Text(Doc(e), "claim_id") == Some(t[i].claimId)
    requires Text(Doc(e), "owner_id") == Some(t[i].ownerId)
    ensures Claims.LegalClaimEvent(es, e) && Claims.ClaimStep(t, e) == t - {i}
  {
    hide Claims.Claims;
  }

  lemma ClaimsSynced(db: Db)
    requires Inv(db)
    ensures db.claims == Claims.Claims(db.events)
  {
    assert Holds(LiveTables, db);
    hide Good, FilesBacked, Accounted, Sane;
  }

  /** The claim is recorded. */
  lemma EstablishKeeps(db: Db, i: string, owner: string, claim: string, a: Attempt)
    requires Inv(db) && Usable(db.events, a) && a.ok && Id(db, i) && Plain(db, owner)
    requires i != "" && owner != "" && claim != "" && i !in db.claims
    ensures Inv(Emit(db, ClaimEvent(db, i, owner, claim, a)).(claims := db.claims[i := ClaimRow(claim, owner, a.now, a.eventId)]))
  {
    hide Inv, Usable, Rooted, Basic, Next, Reads, ClaimChange, Filed, Claims.LegalClaimEvent, NewEvent;
    var e, m := ClaimEvent(db, i, owner, claim, a), ClaimChange(claim, i, owner, "CLAIMED");
    Roots(db, a);
    ChangeReads(db, Claims.ESTABLISHED, claim, i, owner, "CLAIMED", a);
    ClaimsSynced(db);
    EstablishedStep(db.events, db.claims, e, claim, i, owner);
    ClaimKeeps(db, e, m, i);
    ClaimNext(db, e);
  }

  /** `claim_intent` keeps the invariant, granted or refused. */
  lemma ClaimIntentKeeps(db: Db, i: string, owner: Arg, claim: string, a: Attempt)
    requires Inv(db) && Usable(db.events, a) && Id(db, i) && Plain(db, Recorded(owner)) && claim != ""
    ensures Inv(ClaimIntent(db, i, owner, claim, a).0)
  {
    hide Inv, Usable, Rooted, Plain, Emit, ClaimEvent, RejectClaim, Inbox.StatusQuery, ActiveClaim;
    IntentFacts(db, i);
    ClaimFacts(db, i);
    forall error ensures Inv(RejectClaim(db, i, owner, error, a).0) { RejectClaimKeeps(db, i, owner, error, a); }
    if UsableName(owner) && i in db.intents && i !in db.claims && a.ok {
      EstablishKeeps(db, i, owner.s, claim, a);
    }
  }

  /** The release is recorded. */
  lemma ReleasedKeeps(db: Db, i: string, owner: string, a: Attempt)
    requires Inv(db) && Usable(db.events, a) && a.ok && Id(db, i) && Plain(db, owner)
    requires i != "" && i in db.claims && db.claims[i].ownerId == owner
    ensures Inv(Emit(db, ReleaseEvent(db, i, owner, db.claims[i].claimId, a)).(claims := db.claims - {i}))
  {
    hide Inv, Usable, Rooted, Basic, Next, Reads, ClaimChange, Filed, Claims.LegalClaimEvent, NewEvent;
    var claim := db.claims[i].claimId;
    var e, m := ReleaseEvent(db, i, owner, claim, a), ClaimChange(claim, i, owner, "RELEASED");
    Roots(db, a);
    ChangeReads(db, Claims.RELEASED, claim, i, owner, "RELEASED", a);
    ClaimsSynced(db);
    ReleasedStep(db.events, db.claims, e, i);
    ClaimKeeps(db, e, m, i);
    ClaimNext(db, e);
  }

  /** `release_claim` keeps the invariant, granted or refused. */
  lemma ReleaseClaimKeeps(db: Db, i: string, owner: Arg, a: Attempt)
    requires Inv(db) && Usable(db.events, a) && Id(db, i) && Plain(db, Recorded(owner))
    ensures Inv(ReleaseClaim(db, i, owner, a).0)
  {
    hide Inv, Usable, Rooted, Plain, Emit, ReleaseEvent, RejectRelease, ActiveClaim;
    ClaimFacts(db, i);
    forall claim, error ensures Inv(RejectRelease(db, i, owner, claim, error, a).0) {
      RejectReleaseKeeps(db, i, owner, claim, error, a);
    }
    if UsableName(owner) && i in db.claims && db.claims[i].ownerId == owner.s && a.ok {
      ReleasedKeeps(db, i, owner.s, a);
    }
  }

  // ---------------------------------------------------------------- when names are not normal

  /** The live row keeps the owner as given, history its normal form: without normal names the
      table still agrees with the ledger exactly when the owner was normal. */
  lemma LiveClaimExact(db: Db, i: string, owner: string, claim: string, a: Attempt)
    requires Inv(db) && Usable(db.events, a) && a.ok && Id(db, i) && owner != "" && claim != ""
    requires Nfc(db, owner) != "" && ClaimIntent(db, i, StrArg(owner), claim, a).1.success
    ensures var after := ClaimIntent(db, i, StrArg(owner), claim, a).0;
      after.claims == Claims.Claims(after.events) <==> Plain(db, owner)
  {
    hide Inv, Usable, Rooted, Basic, Reads, ClaimChange, Filed, Claims.LegalClaimEvent, NewEvent, Inbox.StatusQuery,
      ActiveClaim, Claims.Claims;
    IntentFacts(db, i);
    ClaimFacts(db, i);
    ClaimsSynced(db);
    var e := ClaimEvent(db, i, owner, claim, a);
    Roots(db, a);
    ChangeReads(db, Claims.ESTABLISHED, claim, i, Nfc(db, owner), "CLAIMED", a);
    EstablishedStep(db.events, db.claims, e, claim, i, Nfc(db, owner));
    ClaimsStep(db.events, e);
    var after := ClaimIntent(db, i, StrArg(owner), claim, a).0;
    assert after.claims[i].ownerId == owner && Claims.Claims(after.events)[i].ownerId == Nfc(db, owner);
  }

  lemma ClaimsStep(es: History, e: Event)
    ensures Claims.Claims(es + [e]) == Claims.ClaimStep(Claims.Claims(es), e)
  {
    hide Claims.ClaimStep;
    Snoc(es, e);
  }
}
