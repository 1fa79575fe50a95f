/** Session events keep the invariant. */
module SessionSteps {
  import opened Strings
  import opened Like
  import opened Json
  import opened Ledger
  import opened State
  import opened Payloads
  import opened Kernels
  import opened Appends
  import opened Invariant
  import opened Events
  import opened IntentSteps
  import Inbox
  import Claims
  import Lifecycle
  import Sessions
  import Workspace
  import Receipts

  function BookOf(db: Db): Sessions.Book {
    Sessions.Book(db.sessions, db.members)
  }

  /** The lookups, the tables and the history check see the same sessions, in order. */
  lemma SessionFacts(db: Db, s: string, i: string)
    requires Inv(db)
    ensures s in db.cfg.ids ==> (Sessions.SessionExists(db.events, s) <==> s in db.sessions)
    ensures s in db.cfg.ids && i in db.cfg.ids ==> (Sessions.MembershipExists(db.events, s, i) <==> (s, i) in db.members)
    ensures Sessions.Ordered(BookOf(db)) && BookOf(db) == Sessions.Books(db.events) && (s in db.sessions ==> s != "")
  {
    assert Holds(LegalHistory, db) && Holds(LiveTables, db);
    hide Sane, FilesBacked, Accounted, RegistryKnown, Good, Exact, Sessions.Books, Sessions.SessionExists, Sessions.MembershipExists;
    GoodRest(db.cfg, db.events);
    if s in db.cfg.ids { GoodExact(db.cfg, db.events, "session_id", s); }
    if i in db.cfg.ids { GoodExact(db.cfg, db.events, "intent_id", i); }
    Sessions.QueriesAreTables(db.events, s, i);
    Sessions.BooksOrdered(db.events);
    Sessions.NamesNonEmpty(db.events);
  }

  lemma SessionKeeps(db: Db, e: Event, m: Fields, intent: Option<string>, session: Option<string>)
    requires Inv(db) && Basic(db.cfg, db.events, e) && IsSessionEvent(e.eventType)
    requires Reads(e, m, None, intent, session) && Filed(m, intent)
    requires Sessions.SessionShaped(e) && Sessions.LegalSessionEvent(db.events, e)
    ensures Inv(Next(db, e))
  {
    hide Inv, Basic, Next, Sessions.SessionShaped, Sessions.LegalSessionEvent, Finds, Filed;
    SessionFamily(e.eventType);
    RunShape(e, m, None, intent, session);
    ReceiptShape(e, m, None, intent, session);
    LegalOutside(db.events, e);
    LegalFromParts(db.events, e);
    InvNext(db, e);
  }

  lemma SessionFamily(t: string)
    requires IsSessionEvent(t)
    ensures !Inbox.IsIntentEvent(t) && !Inbox.IsSubmission(t) && !Lifecycle.IsRunEvent(t) && !Claims.IsClaimEvent(t)
    ensures t != "worker_registered" && t != Workspace.WRITTEN
  {
  }

  lemma SessionNext(db: Db, e: Event, b: Sessions.Book)
    requires IsSessionEvent(e.eventType) && Sessions.BookStep(BookOf(db), e) == b
    ensures Next(db, e) == Emit(db, e).(sessions := b.sessions, members := b.members)
  {
    SessionFamily(e.eventType);
    Still(db, e);
    hide IsSessionEvent, Inbox.InboxStep, Inbox.IntentStep, Claims.ClaimStep, Sessions.BookStep, Workspace.Insert;
  }

  // ---------------------------------------------------------------- create_session

  lemma CreatedReads(db: Db, s: string, a: Attempt)
    requires Rooted(db, a) && s != "" && s in db.cfg.ids
    ensures var e, m := SessionEvent(db, s, a), SessionCreated(s);
      && Basic(db.cfg, db.events, e) && e.id == a.eventId && e.createdAt == a.now && e.eventType == Sessions.CREATED
      && Doc(e) == m && Reads(e, m, None, None, Some(s)) && Filed(m, None)
  {
    hide Rooted, Finds, Basic, NewEvent, Written;
    SessionFinds(s);
    NewRow(db, a, Sessions.CREATED, SessionCreated(s), None, None, None, None, Some(s));
  }

  lemma CreatedIds(e: Event, s: string)
    requires Doc(e) == SessionCreated(s) && s != ""
    ensures Sessions.IdIn(e, "session_id") == Some(s) == Sessions.AuditedId(e, "session_id")
    ensures Sessions.IdIn(e, "intent_id") == None == Sessions.AuditedId(e, "intent_id")
  {
  }

  lemma CreatedLegal(es: History, e: Event, s: string)
    requires e.eventType == Sessions.CREATED && Doc(e) == SessionCreated(s) && s != ""
    requires Reads(e, SessionCreated(s), None, None, Some(s)) && s !in Sessions.Books(es).sessions
    ensures Sessions.SessionShaped(e) && Sessions.LegalSessionEvent(es, e)
    ensures forall b: Sessions.Book :: s !in b.sessions ==> Sessions.BookStep(b, e) == Sessions.Open(b, s, e)
  {
    hide Sessions.IdIn, Sessions.AuditedId, Reads, Mentioned, Sessions.Books, SessionCreated, IsDoc, Doc;
    CreatedIds(e, s);
    ReadsMention(e, SessionCreated(s), None, None, Some(s));
  }

  /** `create_session` keeps the invariant. */
  lemma CreateSessionKeeps(db: Db, s: string, a: Attempt)
    requires Inv(db) && Usable(db.events, a) && s in db.cfg.ids && s != "" && s !in db.sessions
    ensures Inv(CreateSession(db, s, a).0)
  {
    hide Inv, Usable, Rooted, Basic, Next, Reads, SessionCreated, Filed, SessionEvent, Sessions.SessionShaped, Sessions.LegalSessionEvent,
      Sessions.Ordered, Sessions.BookStep;
    if a.ok {
      var e := SessionEvent(db, s, a);
      SessionFacts(db, s, "");
      Roots(db, a);
      CreatedReads(db, s, a);
      CreatedLegal(db.events, e, s);
      SessionKeeps(db, e, Doc(e), None, Some(s));
      SessionNext(db, e, Sessions.Open(BookOf(db), s, e));
    }
  }

  // ---------------------------------------------------------------- add_intent_to_session

  lemma MemberReads(db: Db, s: string, i: string, a: Attempt)
    requires Rooted(db, a) && s != "" && i != "" && Id(db, s) && Id(db, i)
    ensures var e, m := MemberEvent(db, s, i, a), SessionMember(s, i, None);
      && Basic(db.cfg, db.events, e) && e.id == a.eventId && e.createdAt == a.now && e.eventType == Sessions.ADDED
      && Doc(e) == m && Reads(e, m, None, Some(i), Some(s)) && Filed(m, Some(i))
  {
    hide Rooted, Finds, Basic, NewEvent, Written;
    MemberFinds(s, i, None);
    NewRow(db, a, Sessions.ADDED, SessionMember(s, i, None), None, None, None, Some(i), Some(s));
  }

  lemma MemberIds(e: Event, s: string, i: string)
    requires Doc(e) == SessionMember(s, i, None) && s != "" && i != ""
    ensures Sessions.IdIn(e, "session_id") == Some(s) == Sessions.AuditedId(e, "session_id")
    ensures Sessions.IdIn(e, "intent_id") == Some(i) == Sessions.AuditedId(e, "intent_id")
  {
  }

  lemma MemberLegal(es: History, e: Event, s: string, i: string)
    requires e.eventType == Sessions.ADDED && Doc(e) == SessionMember(s, i, None) && s != "" && i != ""
    requires Reads(e, SessionMember(s, i, None), None, Some(i), Some(s))
    requires s in Sessions.Books(es).sessions && (s, i) !in Sessions.Books(es).members && i in Inbox.KnownIntents(es)
    ensures Sessions.SessionShaped(e) && Sessions.LegalSessionEvent(es, e)
    ensures forall b: Sessions.Book :: Sessions.BookStep(b, e) == Sessions.Join(b, s, i, e)
  {
    hide Sessions.IdIn, Sessions.AuditedId, Reads, Mentioned, Sessions.Books, Inbox.KnownIntents, Sessions.Join,
      SessionMember, IsDoc, Doc;
    MemberIds(e, s, i);
    ReadsMention(e, SessionMember(s, i, None), None, Some(i), Some(s));
  }

  lemma KnownIntent(db: Db, i: string)
    requires Inv(db) && i in db.cfg.ids && Inbox.StatusQuery(db.events, i).Some?
    ensures i != "" && i in Inbox.KnownIntents(db.events)
  {
    IntentFacts(db, i);
    assert Holds(LegalHistory, db);
    hide Inv, Good, Inbox.StatusQuery, Inbox.LastTypes, Inbox.TransitionErrors, Inbox.KnownIntents;
    GoodIntents(db.cfg, db.events);
    Inbox.SeenIsKnown(db.events, i);
  }

  /** The rows the code writes are those of the next member. */
  lemma InsertedIsJoined(db: Db, s: string, i: string, a: Attempt, e: Event)
    requires Sessions.Ordered(BookOf(db)) && s in db.sessions && (s, i) !in db.members
    requires e.id == a.eventId && e.createdAt == a.now
    ensures InsertMember(Emit(db, e), s, i, a) ==
      Emit(db, e).(sessions := Sessions.Join(BookOf(db), s, i, e).sessions, members := Sessions.Join(BookOf(db), s, i, e).members)
  {
    assert Sessions.Ranked(BookOf(db), s);
    hide Sessions.HasRank, Sessions.Intents;
  }

  /** `add_intent_to_session` keeps the invariant, added or refused. */
  lemma MemberKeeps(db: Db, s: string, i: string, a: Attempt)
    requires Inv(db) && Usable(db.events, a) && a.ok && Id(db, s) && Id(db, i)
    requires s in db.sessions && Inbox.StatusQuery(db.events, i).Some? && (s, i) !in db.members
    ensures Inv(InsertMember(Emit(db, MemberEvent(db, s, i, a)), s, i, a))
  {
    hide Inv, Usable, Rooted, Basic, Next, Reads, SessionMember, Filed, MemberEvent, InsertMember, Sessions.SessionShaped,
      Sessions.LegalSessionEvent, Sessions.Ordered, Sessions.BookStep, Sessions.Join, Plain, Inbox.StatusQuery;
    var e := MemberEvent(db, s, i, a);
    SessionFacts(db, s, i);
    KnownIntent(db, i);
    Roots(db, a);
    MemberReads(db, s, i, a);
    MemberLegal(db.events, e, s, i);
    SessionKeeps(db, e, Doc(e), Some(i), Some(s));
    SessionNext(db, e, Sessions.Join(BookOf(db), s, i, e));
    InsertedIsJoined(db, s, i, a, e);
  }

  lemma AddKeeps(db: Db, s: string, i: string, a: Attempt)
    requires Inv(db) && Usable(db.events, a) && Id(db, s) && Id(db, i)
    ensures Inv(AddIntent(db, s, i, a).0)
  {
    hide Inv, Usable, Rooted, Plain, Emit, MemberEvent, InsertMember, RejectMember, Inbox.StatusQuery, Sessions.SessionExists,
      Sessions.MembershipExists, Sessions.Ordered;
    SessionFacts(db, s, i);
    forall error ensures Inv(RejectMember(db, s, i, error, a).0) { RejectMemberKeeps(db, s, i, error, a); }
    if s in db.sessions && Inbox.StatusQuery(db.events, i).Some? && (s, i) !in db.members && a.ok {
      MemberKeeps(db, s, i, a);
    }
  }
}
