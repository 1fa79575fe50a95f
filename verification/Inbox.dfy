/** Intents: the status state machine, the status query, `intent_projection` and `inbox_entries`
    with their rebuilds, and the auditor's recomputation and checks of intents. */
module Inbox {
  import opened Strings
  import opened Json
  import opened Ledger
  import opened State
  import opened Errors

  predicate IsIntentEvent(t: string) {
    || t == "intent_submitted" || t == "intent_rejected" || t == "intent_claimed"
    || t == "intent_completed" || t == "intent_failed"
  }

  predicate IsSubmission(t: string) {
    t == "intent_submitted" || t == "intent_rejected"
  }

  /** INTENT_STATUS_BY_EVENT_TYPE. */
  function StatusOf(t: string): string
    requires IsIntentEvent(t)
  {
    if t == "intent_submitted" then "PENDING"
    else if t == "intent_rejected" then "REJECTED"
    else if t == "intent_claimed" then "RUNNING"
    else if t == "intent_completed" then "COMPLETED"
    else "FAILED"
  }

  /** ALLOWED_INTENT_TRANSITIONS. */
  predicate Follows(previous: string, next: string) {
    || (previous == "intent_submitted" && next == "intent_claimed")
    || (previous == "intent_claimed" && (next == "intent_completed" || next == "intent_failed"))
  }

  predicate Terminal(status: string) {
    status == "REJECTED" || status == "COMPLETED" || status == "FAILED"
  }

  function IntentId(e: Event): Option<string> {
    Name(Doc(e), "intent_id")
  }

  function StatusIn(e: Event): Option<string> {
    Text(Doc(e), "status")
  }

  function WorkerIn(e: Event): Option<string> {
    Text(Doc(e), "worker_name")
  }

  // ---------------------------------------------------------------- intent_projection

  /** The event says something readable about an intent. */
  predicate Speaks(e: Event) {
    IsIntentEvent(e.eventType) && IntentId(e).Some? && StatusIn(e).Some?
  }

  function RowOf(e: Event): IntentRow
    requires StatusIn(e).Some?
  {
    IntentRow(StatusIn(e).value, WorkerIn(e), e.createdAt, e.id)
  }

  predicate Closed(t: IntentTable, i: string) {
    i in t && Terminal(t[i].status)
  }

  function IntentStep(t: IntentTable, e: Event): IntentTable {
    if Speaks(e) && !Closed(t, IntentId(e).value) then t[IntentId(e).value := RowOf(e)] else t
  }

  /** The last event of each intent, up to and including its first terminal one. */
  function Intents(es: History): IntentTable {
    if es == [] then map[] else IntentStep(Intents(es[..|es|-1]), es[|es|-1])
  }

  /** The event gives intent `i` the row. */
  predicate Sets(e: Event, i: string, row: IntentRow) {
    Speaks(e) && IntentId(e) == Some(i) && RowOf(e) == row
  }

  /** While the intent is open, upserting its row is the rebuild's next step. */
  lemma UpsertIsStep(es: History, e: Event, i: string, row: IntentRow)
    requires Sets(e, i, row) && !Closed(Intents(es), i)
    ensures Intents(es + [e]) == Intents(es)[i := row]
  {
    Snoc(es, e);
  }

  /** The event says something readable about intent `i`. */
  predicate SpeaksOf(e: Event, i: string) {
    IsIntentEvent(e.eventType) && IntentId(e) == Some(i) && StatusIn(e).Some?
  }

  /** Event `n` gives the intent its row: it says something readable, nothing before it closed the intent, and it
      closes the intent itself or is the last to say something. */
  ghost predicate GivesRow(es: History, i: string, n: nat) {
    && n < |es| && SpeaksOf(es[n], i)
    && (forall k :: 0 <= k < n && SpeaksOf(es[k], i) ==> !Terminal(StatusIn(es[k]).value))
    && (Terminal(StatusIn(es[n]).value) || forall k :: n < k < |es| ==> !SpeaksOf(es[k], i))
  }

  lemma GivesInside(es: History, i: string, n: nat)
    requires GivesRow(es, i, n)
    ensures n < |es| && SpeaksOf(es[n], i) && forall k: nat :: GivesRow(es, i, k) ==> k == n
  {
    hide SpeaksOf, Terminal;
  }

  lemma IntentsMove(front: History, e: Event, i: string)
    ensures var t, u := Intents(front), Intents(front + [e]);
      if SpeaksOf(e, i) && !Closed(t, i) then
        i in u && u[i] == IntentRow(StatusIn(e).value, WorkerIn(e), e.createdAt, e.id)
      else (i in u <==> i in t) && (i in t ==> u[i] == t[i])
  {
    hide IsIntentEvent, IntentId, StatusIn, WorkerIn, Terminal;
    Snoc(front, e);
  }

  /** Some event of the intent closes it. */
  ghost predicate ClosesAt(es: History, i: string, k: nat) {
    k < |es| && SpeaksOf(es[k], i) && Terminal(StatusIn(es[k]).value)
  }

  lemma {:induction false} ClosedSometime(es: History, i: string)
    ensures Closed(Intents(es), i) <==> exists k: nat :: ClosesAt(es, i, k)
  {
    hide IsIntentEvent, IntentId, StatusIn, WorkerIn, Terminal, Intents;
    if es == [] {
      assert Intents(es) == map[] by { NoIntents(); }
    } else {
      var front, m := es[..|es|-1], |es| - 1;
      ClosedSometime(front, i);
      IntentsMove(front, es[m], i);
      Unsnoc(es);
      if k: nat :| ClosesAt(front, i, k) { assert ClosesAt(es, i, k); }
      if k: nat :| ClosesAt(es, i, k) {
        if k < m { assert ClosesAt(front, i, k); }
      }
      if SpeaksOf(es[m], i) && Terminal(StatusIn(es[m]).value) { assert ClosesAt(es, i, m); }
    }
  }

  lemma NoIntents()
    ensures Intents([]) == map[]
  {
  }

  /** So the rebuilt row of an intent is that of its first terminal event, or of its last if there is none. */
  lemma {:induction false} RowIsGiven(es: History, i: string)
    ensures i in Intents(es) <==> exists n: nat :: GivesRow(es, i, n)
    ensures forall n: nat :: GivesRow(es, i, n) ==>
      SpeaksOf(es[n], i) && i in Intents(es) && Intents(es)[i] == IntentRow(StatusIn(es[n]).value, WorkerIn(es[n]), es[n].createdAt, es[n].id)
  {
    hide IsIntentEvent, IntentId, StatusIn, WorkerIn, Terminal, Intents, Closed, GivesRow, ClosesAt;
    forall n: nat | GivesRow(es, i, n) ensures n < |es| && SpeaksOf(es[n], i) { GivesInside(es, i, n); }
    if es == [] {
      NoIntents();
    } else {
      var front, e := es[..|es|-1], es[|es|-1];
      RowIsGiven(front, i);
      IntentsMove(front, e, i);
      ClosedSometime(front, i);
      Unsnoc(es);
      forall n: nat | GivesRow(front, i, n) ensures n < |front| && front[n] == es[n] { GivesInside(front, i, n); }
      if SpeaksOf(e, i) && !Closed(Intents(front), i) {
        LastGives(front, e, i);
        assert GivesRow(es, i, |front|);
      } else {
        forall n: nat ensures GivesRow(es, i, n) <==> GivesRow(front, i, n) { SameGives(front, e, i, n); }
      }
    }
  }

  lemma LastGives(front: History, e: Event, i: string)
    requires SpeaksOf(e, i) && forall k: nat :: !ClosesAt(front, i, k)
    ensures forall n: nat :: GivesRow(front + [e], i, n) <==> n == |front|
  {
    hide IsIntentEvent, IntentId, StatusIn, Terminal;
    var es, m := front + [e], |front|;
    forall k: nat | k < m && SpeaksOf(es[k], i) ensures !Terminal(StatusIn(es[k]).value) { assert es[k] == front[k] && !ClosesAt(front, i, k); }
    assert SpeaksOf(es[m], i);
    forall n: nat ensures GivesRow(es, i, n) <==> n == m { }
  }

  lemma SameGives(front: History, e: Event, i: string, n: nat)
    requires !SpeaksOf(e, i) || exists k: nat :: ClosesAt(front, i, k)
    ensures GivesRow(front + [e], i, n) <==> GivesRow(front, i, n)
  {
    hide IsIntentEvent, IntentId, StatusIn, Terminal;
    var es := front + [e];
    assert forall k :: 0 <= k < |front| ==> front[k] == es[k];
    if k: nat :| ClosesAt(front, i, k) { assert SpeaksOf(es[k], i) && SpeaksOf(front[k], i); }
  }

  /** `rebuild_intent_projection`. */
  method RebuildIntents(db: Database)
    modifies db`intents
    ensures db.intents == Intents(db.events)
  {
    var terminal: set<string> := {};
    db.intents := map[];
    for i := 0 to |db.events|
      invariant db.intents == Intents(db.events[..i])
      invariant forall x :: x in terminal <==> Closed(db.intents, x)
    {
      var e := db.events[i];
      Upto(db.events, i);
      if Speaks(e) {
        var id := IntentId(e).value;
        if id !in terminal {
          db.intents := db.intents[id := RowOf(e)];
          if Terminal(StatusIn(e).value) { terminal := terminal + {id}; }
        }
      }
    }
    assert db.events[..|db.events|] == db.events;
  }

  /** `compute_expected_intents`. */
  method ComputeExpectedIntents(es: History) returns (expected: IntentTable)
    ensures expected == Intents(es)
  {
    expected := map[];
    var terminal: set<string> := {};
    for i := 0 to |es|
      invariant expected == Intents(es[..i])
      invariant forall x :: x in terminal <==> Closed(expected, x)
    {
      var e := es[i];
      Upto(es, i);
      if Speaks(e) && IntentId(e).value !in terminal {
        expected := expected[IntentId(e).value := RowOf(e)];
        if Terminal(StatusIn(e).value) { terminal := terminal + {IntentId(e).value}; }
      }
    }
    assert es[..|es|] == es;
  }

  // ---------------------------------------------------------------- inbox_entries

  /** `rebuild_inbox_entries` keeps the first readable submission of each intent. */
  predicate Enters(e: Event) {
    && IsSubmission(e.eventType) && IntentId(e).Some? && Text(Doc(e), "intent_type").Some?
    && StatusIn(e).Some? && "payload" in Doc(e) && Doc(e)["payload"].Obj?
  }

  function InboxRowOf(e: Event): InboxRow
    requires Enters(e)
  {
    InboxRow(e.createdAt, Text(Doc(e), "intent_type").value, Doc(e)["payload"], StatusIn(e).value)
  }

  function InboxStep(t: InboxTable, e: Event): InboxTable {
    if Enters(e) && IntentId(e).value !in t then t[IntentId(e).value := InboxRowOf(e)] else t
  }

  function Entries(es: History): InboxTable {
    if es == [] then map[] else InboxStep(Entries(es[..|es|-1]), es[|es|-1])
  }

  method RebuildInboxEntries(db: Database)
    modifies db`inbox
    ensures db.inbox == Entries(db.events)
  {
    db.inbox := map[];
    for i := 0 to |db.events|
      invariant db.inbox == Entries(db.events[..i])
    {
      var e := db.events[i];
      Upto(db.events, i);
      if Enters(e) && IntentId(e).value !in db.inbox {
        db.inbox := db.inbox[IntentId(e).value := InboxRowOf(e)];
      }
    }
    assert db.events[..|db.events|] == db.events;
  }

  function SubmissionStep(t: map<string, string>, e: Event): map<string, string> {
    if IsSubmission(e.eventType) && IntentId(e).Some? && StatusIn(e).Some?
    then t[IntentId(e).value := StatusIn(e).value] else t
  }

  /** `compute_expected_submission_status`: the last submission wins. */
  function SubmissionStatus(es: History): map<string, string> {
    if es == [] then map[] else SubmissionStep(SubmissionStatus(es[..|es|-1]), es[|es|-1])
  }

  method ComputeExpectedSubmissionStatus(es: History) returns (expected: map<string, string>)
    ensures expected == SubmissionStatus(es)
  {
    expected := map[];
    for i := 0 to |es|
      invariant expected == SubmissionStatus(es[..i])
    {
      var e := es[i];
      Upto(es, i);
      if IsSubmission(e.eventType) && IntentId(e).Some? && StatusIn(e).Some? {
        expected := expected[IntentId(e).value := StatusIn(e).value];
      }
    }
    assert es[..|es|] == es;
  }

  // ---------------------------------------------------------------- check_intents

  function InboxErrors(inbox: InboxTable, expected: map<string, string>): string -> ErrorList {
    (i: string) =>
      if i !in expected then []
      else if i !in inbox then [AuditError("MISSING_INBOX_ROW", i)]
      else When(inbox[i].status != expected[i], "INTENT_STATUS_MISMATCH", i)
  }

  function IntentRowErrors(actual: IntentTable, expected: IntentTable): string -> ErrorList {
    (i: string) =>
      if i !in expected then []
      else if i !in actual then [AuditError("INTENT_PROJECTION_MISMATCH", i)]
      else
        When(actual[i].status != expected[i].status, "INTENT_PROJECTION_MISMATCH", i) +
        When(expected[i].workerName.Some? && actual[i].workerName != expected[i].workerName,
             "INTENT_PROJECTION_MISMATCH", i) +
        When(actual[i].lastEventId != expected[i].lastEventId, "INTENT_PROJECTION_LAST_EVENT_ID_MISMATCH", i) +
        When(actual[i].updatedAt != expected[i].updatedAt, "INTENT_PROJECTION_UPDATED_AT_MISMATCH", i)
  }

  /** `check_intents`. */
  method CheckIntents(inbox: InboxTable, actual: IntentTable, es: History) returns (errors: ErrorList)
    ensures errors ==
      Collect(SortedKeys(SubmissionStatus(es).Keys), InboxErrors(inbox, SubmissionStatus(es))) +
      Collect(SortedKeys(Intents(es).Keys), IntentRowErrors(actual, Intents(es)))
  {
    var submissions := ComputeExpectedSubmissionStatus(es);
    var expected := ComputeExpectedIntents(es);
    errors := Report(SortedKeys(submissions.Keys), InboxErrors(inbox, submissions));
    var more := Report(SortedKeys(expected.Keys), IntentRowErrors(actual, expected));
    errors := errors + more;
  }

  lemma InboxErrorsEmpty(inbox: InboxTable, expected: map<string, string>)
    ensures Collect(SortedKeys(expected.Keys), InboxErrors(inbox, expected)) == []
       <==> forall i :: i in expected ==> i in inbox && inbox[i].status == expected[i]
  {
    var of := InboxErrors(inbox, expected);
    CollectEmpty(SortedKeys(expected.Keys), of);
    forall i | i in expected
      ensures of(i) == [] <==> (i in inbox && inbox[i].status == expected[i])
    {
    }
  }

  /** The worker column may hold anything while history names no worker. */
  predicate SameRow(actual: IntentRow, expected: IntentRow) {
    && actual.status == expected.status && actual.lastEventId == expected.lastEventId
    && actual.updatedAt == expected.updatedAt
    && (expected.workerName.Some? ==> actual.workerName == expected.workerName)
  }

  lemma IntentErrorsEmpty(actual: IntentTable, expected: IntentTable)
    ensures Collect(SortedKeys(expected.Keys), IntentRowErrors(actual, expected)) == []
       <==> forall i :: i in expected ==> i in actual && SameRow(actual[i], expected[i])
  {
    var of := IntentRowErrors(actual, expected);
    CollectEmpty(SortedKeys(expected.Keys), of);
    forall i | i in expected
      ensures of(i) == [] <==> (i in actual && SameRow(actual[i], expected[i]))
    {
    }
  }

  /** What the comparisons have to say of an intent, of its inbox entry and of its row. */
  predicate EntryWrong(inbox: InboxTable, expected: map<string, string>, i: string, code: string) {
    && i in expected
    && if i !in inbox then code == "MISSING_INBOX_ROW" else code == "INTENT_STATUS_MISMATCH" && inbox[i].status != expected[i]
  }

  predicate RowWrong(actual: IntentTable, expected: IntentTable, i: string, code: string) {
    && i in expected
    && if i !in actual then code == "INTENT_PROJECTION_MISMATCH"
       else
         || (code == "INTENT_PROJECTION_MISMATCH"
             && !(actual[i].status == expected[i].status
                  && (expected[i].workerName.Some? ==> actual[i].workerName == expected[i].workerName)))
         || (code == "INTENT_PROJECTION_LAST_EVENT_ID_MISMATCH" && actual[i].lastEventId != expected[i].lastEventId)
         || (code == "INTENT_PROJECTION_UPDATED_AT_MISMATCH" && actual[i].updatedAt != expected[i].updatedAt)
  }

  lemma EntryFinds(inbox: InboxTable, expected: map<string, string>, i: string, x: AuditError)
    ensures x in InboxErrors(inbox, expected)(i) <==> x.id == i && EntryWrong(inbox, expected, i, x.code)
  {
  }

  lemma IntentRowFinds(actual: IntentTable, expected: IntentTable, i: string, x: AuditError)
    ensures x in IntentRowErrors(actual, expected)(i) <==> x.id == i && RowWrong(actual, expected, i, x.code)
  {
    if i in expected && i in actual {
      WhenFinds(actual[i].status != expected[i].status, "INTENT_PROJECTION_MISMATCH", i, x);
      WhenFinds(expected[i].workerName.Some? && actual[i].workerName != expected[i].workerName, "INTENT_PROJECTION_MISMATCH", i, x);
      WhenFinds(actual[i].lastEventId != expected[i].lastEventId, "INTENT_PROJECTION_LAST_EVENT_ID_MISMATCH", i, x);
      WhenFinds(actual[i].updatedAt != expected[i].updatedAt, "INTENT_PROJECTION_UPDATED_AT_MISMATCH", i, x);
      hide When;
    }
  }

  /** They report exactly that. */
  lemma InboxErrorsFind(inbox: InboxTable, expected: map<string, string>, x: AuditError)
    ensures x in Collect(SortedKeys(expected.Keys), InboxErrors(inbox, expected)) <==> EntryWrong(inbox, expected, x.id, x.code)
  {
    forall i { EntryFinds(inbox, expected, i, x); }
    hide InboxErrors, Collect;
    ReportFinds(SortedKeys(expected.Keys), InboxErrors(inbox, expected), x);
  }

  lemma IntentErrorsFind(actual: IntentTable, expected: IntentTable, x: AuditError)
    ensures x in Collect(SortedKeys(expected.Keys), IntentRowErrors(actual, expected)) <==> RowWrong(actual, expected, x.id, x.code)
  {
    forall i { IntentRowFinds(actual, expected, i, x); }
    hide IntentRowErrors, Collect;
    ReportFinds(SortedKeys(expected.Keys), IntentRowErrors(actual, expected), x);
  }

  // ---------------------------------------------------------------- rebuilt tables under the check

  /** A submission event the auditor reads: it names the intent and a status. */
  predicate States(e: Event, i: string) {
    IsSubmission(e.eventType) && IntentId(e) == Some(i) && StatusIn(e).Some?
  }

  ghost predicate LastStated(es: History, i: string, n: nat) {
    n < |es| && States(es[n], i) && forall k :: n < k < |es| ==> !States(es[k], i)
  }

  /** A submission event the rebuild enters: it is readable as a whole. */
  predicate EntersFor(e: Event, i: string) {
    Enters(e) && IntentId(e) == Some(i)
  }

  lemma EntersForIs(e: Event, i: string)
    ensures EntersFor(e, i) <==>
      && (e.eventType == "intent_submitted" || e.eventType == "intent_rejected") && Name(Doc(e), "intent_id") == Some(i)
      && Text(Doc(e), "intent_type").Some? && Text(Doc(e), "status").Some? && "payload" in Doc(e) && Doc(e)["payload"].Obj?
    ensures EntersFor(e, i) ==>
      InboxRowOf(e) == InboxRow(e.createdAt, Text(Doc(e), "intent_type").value, Doc(e)["payload"], Text(Doc(e), "status").value)
  {
    hide Doc;
  }

  ghost predicate FirstReadable(es: History, i: string, n: nat) {
    n < |es| && EntersFor(es[n], i) && forall k :: 0 <= k < n ==> !EntersFor(es[k], i)
  }

  /** The last submission of every intent states the status of its first readable one. */
  ghost predicate SubmissionsAgree(es: History) {
    forall i, n: nat :: LastStated(es, i, n) ==>
      exists k: nat :: FirstReadable(es, i, k) && StatusIn(es[k]) == StatusIn(es[n])
  }

  /** The auditor's status is that of the last submission. */
  lemma {:induction false} StatusIsLast(es: History, i: string)
    ensures i in SubmissionStatus(es) <==> exists n: nat :: LastStated(es, i, n)
    ensures forall n: nat :: LastStated(es, i, n) ==> i in SubmissionStatus(es) && StatusIn(es[n]) == Some(SubmissionStatus(es)[i])
  {
    hide IsSubmission, StatusIn, IntentId;
    if es != [] {
      var front, m := es[..|es|-1], |es| - 1;
      StatusIsLast(front, i);
      if States(es[m], i) {
        assert LastStated(es, i, m);
        assert forall n: nat :: LastStated(es, i, n) ==> n == m;
      } else {
        assert forall n: nat :: LastStated(es, i, n) <==> LastStated(front, i, n) by { SameLast(es, i); }
      }
    }
  }

  lemma SameLast(es: History, i: string)
    requires es != [] && !States(es[|es|-1], i)
    ensures forall n: nat :: LastStated(es, i, n) <==> LastStated(es[..|es|-1], i, n)
  {
    hide States;
  }

  /** The rebuilt entry is that of the first readable submission. */
  lemma {:induction false} EntryIsFirst(es: History, i: string)
    ensures i in Entries(es) <==> exists n: nat :: FirstReadable(es, i, n)
    ensures forall n: nat :: FirstReadable(es, i, n) ==> i in Entries(es) && Entries(es)[i] == InboxRowOf(es[n])
  {
    hide Enters, IntentId, InboxRowOf;
    if es != [] {
      var front, m := es[..|es|-1], |es| - 1;
      EntryIsFirst(front, i);
      SameFirst(es, i);
      hide FirstReadable, Entries;
      EntriesStep(es);
      if Enters(es[m]) { EntersNames(es[m]); }
      if n: nat :| FirstReadable(front, i, n) { FirstInside(front, i, n); assert FirstReadable(es, i, n); }
      if EntersFor(es[m], i) && forall n: nat :: !FirstReadable(front, i, n) { assert FirstReadable(es, i, m); }
      forall n: nat | FirstReadable(es, i, n) ensures n <= m { FirstInside(es, i, n); }
    }
  }

  lemma EntriesStep(es: History)
    requires es != []
    ensures Entries(es) == InboxStep(Entries(es[..|es|-1]), es[|es|-1])
  {
  }

  lemma EntersNames(e: Event)
    requires Enters(e)
    ensures IntentId(e).Some?
  {
  }

  lemma FirstInside(es: History, i: string, n: nat)
    requires FirstReadable(es, i, n)
    ensures n < |es| && EntersFor(es[n], i)
  {
  }

  lemma SameFirst(es: History, i: string)
    requires es != []
    ensures var front, m := es[..|es|-1], |es| - 1;
      && (forall n: nat :: n < m ==> (FirstReadable(es, i, n) <==> FirstReadable(front, i, n)))
      && (FirstReadable(es, i, m) <==> EntersFor(es[m], i) && forall n: nat :: !FirstReadable(front, i, n))
  {
    hide EntersFor;
    var front, m := es[..|es|-1], |es| - 1;
    if EntersFor(es[m], i) && forall n: nat :: !FirstReadable(front, i, n) { NoneReadable(front, i, m); }
  }

  lemma {:induction false} NoneReadable(es: History, i: string, m: nat)
    requires m <= |es| && forall n: nat :: !FirstReadable(es, i, n)
    ensures forall k :: 0 <= k < m ==> !EntersFor(es[k], i)
  {
    hide EntersFor;
    if m > 0 {
      NoneReadable(es, i, m - 1);
      assert !FirstReadable(es, i, m - 1);
    }
  }

  /** Rebuilding both tables and then checking them: the intent half reports nothing on any history; the
      inbox half reports nothing if and only if, for every intent, its last submission states the status
      of its first readable one. */
  method RebuildPassesAudit(db: Database) returns (errors: ErrorList)
    modifies db`intents, db`inbox
    ensures db.intents == Intents(db.events) && db.inbox == Entries(db.events)
    ensures errors == [] <==> SubmissionsAgree(db.events)
  {
    RebuildInboxEntries(db);
    RebuildIntents(db);
    errors := CheckIntents(db.inbox, db.intents, db.events);
    IntentErrorsEmpty(db.intents, Intents(db.events));
    RebuiltInboxExact(db.events);
  }

  /** The exact condition under which a rebuilt inbox passes. */
  lemma RebuiltInboxExact(es: History)
    ensures Collect(SortedKeys(SubmissionStatus(es).Keys), InboxErrors(Entries(es), SubmissionStatus(es))) == [] <==> SubmissionsAgree(es)
  {
    hide Collect, InboxErrors, Entries, SubmissionStatus, SubmissionsAgree;
    InboxErrorsEmpty(Entries(es), SubmissionStatus(es));
    forall i ensures IntentAgrees(es, i) <==>
      (i in SubmissionStatus(es) ==> i in Entries(es) && Entries(es)[i].status == SubmissionStatus(es)[i])
    {
      IntentAgreesExact(es, i);
    }
    AgreeEach(es);
  }

  ghost predicate IntentAgrees(es: History, i: string) {
    forall n: nat :: LastStated(es, i, n) ==> exists k: nat :: FirstReadable(es, i, k) && StatusIn(es[k]) == StatusIn(es[n])
  }

  lemma AgreeEach(es: History)
    ensures SubmissionsAgree(es) <==> forall i :: IntentAgrees(es, i)
  {
    hide States, EntersFor;
    if SubmissionsAgree(es) { forall i ensures IntentAgrees(es, i) { } }
    if forall i :: IntentAgrees(es, i) {
      forall i, n: nat | LastStated(es, i, n)
        ensures exists k: nat :: FirstReadable(es, i, k) && StatusIn(es[k]) == StatusIn(es[n])
      {
        assert IntentAgrees(es, i);
      }
    }
  }

  lemma IntentAgreesExact(es: History, i: string)
    ensures IntentAgrees(es, i) <==>
      (i in SubmissionStatus(es) ==> i in Entries(es) && Entries(es)[i].status == SubmissionStatus(es)[i])
  {
    hide Entries, SubmissionStatus, IsSubmission, IntentId;
    StatusIsLast(es, i);
    EntryIsFirst(es, i);
    forall k: nat | FirstReadable(es, i, k) ensures StatusIn(es[k]) == Some(InboxRowOf(es[k]).status) { }
    hide LastStated, FirstReadable, StatusIn, InboxRowOf;
    if i in SubmissionStatus(es) && i in Entries(es) {
      var n: nat :| LastStated(es, i, n);
      var k: nat :| FirstReadable(es, i, k);
    }
  }

  /** A second submission with another status: the rebuilt inbox fails the check. */
  lemma RepeatedSubmissionFails(first: Event, second: Event, i: string)
    requires EntersFor(first, i) && States(second, i) && StatusIn(first) != StatusIn(second)
    ensures !SubmissionsAgree([first, second])
  {
    hide Enters, IsSubmission, IntentId, StatusIn;
    var es := [first, second];
    assert LastStated(es, i, 1);
    forall k: nat | FirstReadable(es, i, k) ensures StatusIn(es[k]) != StatusIn(es[1]) {
      assert EntersFor(es[0], i);
    }
  }

  // ---------------------------------------------------------------- history checks

  function LastTypeStep(t: map<string, string>, e: Event): map<string, string> {
    if IsIntentEvent(e.eventType) && IntentId(e).Some? then t[IntentId(e).value := e.eventType] else t
  }

  /** The last intent event type seen for each intent, terminal or not. */
  function LastTypes(es: History): map<string, string> {
    if es == [] then map[] else LastTypeStep(LastTypes(es[..|es|-1]), es[|es|-1])
  }

  predicate LegalNext(t: map<string, string>, i: string, next: string) {
    if i in t then Follows(t[i], next) else IsSubmission(next)
  }

  predicate LegalIntentEvent(before: History, e: Event) {
    IsIntentEvent(e.eventType) && IntentId(e).Some? ==> LegalNext(LastTypes(before), IntentId(e).value, e.eventType)
  }

  function TransitionErrors(es: History): ErrorList {
    if es == [] then []
    else
      var front, e := es[..|es|-1], es[|es|-1];
      TransitionErrors(front) + When(!LegalIntentEvent(front, e), "ILLEGAL_TRANSITION", e.id)
  }

  /** `check_intent_transitions`. */
  method CheckIntentTransitions(es: History) returns (errors: ErrorList)
    ensures errors == TransitionErrors(es)
  {
    hide IsIntentEvent, Follows, IsSubmission;
    errors := [];
    var last: map<string, string> := map[];
    for k := 0 to |es|
      invariant errors == TransitionErrors(es[..k]) && last == LastTypes(es[..k])
    {
      Upto(es, k);
      var e := es[k];
      if IsIntentEvent(e.eventType) && IntentId(e).Some? {
        var i := IntentId(e).value;
        var legal := if i in last then Follows(last[i], e.eventType) else IsSubmission(e.eventType);
        if !legal { errors := errors + [AuditError("ILLEGAL_TRANSITION", e.id)]; }
        last := last[i := e.eventType];
      }
    }
    assert es[..|es|] == es;
  }

  /** The intent event types of intent `i`, in ledger order. */
  function IntentTypes(es: History, i: string): seq<string> {
    if es == [] then []
    else
      var e := es[|es|-1];
      IntentTypes(es[..|es|-1], i) + if IsIntentEvent(e.eventType) && IntentId(e) == Some(i) then [e.eventType] else []
  }

  /** A path of the intent transition table. */
  predicate IntentPath(ks: seq<string>) {
    || ks == [] || ks == ["intent_rejected"] || ks == ["intent_submitted"]
    || ks == ["intent_submitted", "intent_claimed"]
    || ks == ["intent_submitted", "intent_claimed", "intent_completed"]
    || ks == ["intent_submitted", "intent_claimed", "intent_failed"]
  }

  lemma {:induction false} LastTypeIsLast(es: History, i: string)
    ensures i in LastTypes(es) <==> IntentTypes(es, i) != []
    ensures i in LastTypes(es) ==> LastTypes(es)[i] == IntentTypes(es, i)[|IntentTypes(es, i)|-1]
  {
    if es != [] { LastTypeIsLast(es[..|es|-1], i); }
  }

  lemma PathStep(ks: seq<string>, next: string)
    requires IntentPath(ks) && IsIntentEvent(next)
    ensures IntentPath(ks + [next]) <==> if ks == [] then IsSubmission(next) else Follows(ks[|ks|-1], next)
  {
    var more := ks + [next];
    assert |more| == |ks| + 1 && more[|ks|] == next && more[..|ks|] == ks;
  }

  lemma PathFront(ks: seq<string>, next: string)
    requires IntentPath(ks + [next])
    ensures IntentPath(ks)
  {
    var more := ks + [next];
    assert more[..|ks|] == ks;
  }

  ghost predicate OnPath(es: History) {
    forall i :: IntentPath(IntentTypes(es, i))
  }

  lemma OnPathStep(es: History)
    requires es != [] && OnPath(es[..|es|-1])
    ensures OnPath(es) <==> LegalIntentEvent(es[..|es|-1], es[|es|-1])
  {
    hide IntentPath, Follows;
    var front, e := es[..|es|-1], es[|es|-1];
    if IsIntentEvent(e.eventType) && IntentId(e).Some? {
      var i := IntentId(e).value;
      LastTypeIsLast(front, i);
      PathStep(IntentTypes(front, i), e.eventType);
      assert IntentTypes(es, i) == IntentTypes(front, i) + [e.eventType];
      forall q | q != i ensures IntentTypes(es, q) == IntentTypes(front, q) { }
    } else {
      forall q ensures IntentTypes(es, q) == IntentTypes(front, q) { }
    }
  }

  lemma OnPathFront(es: History)
    requires es != [] && OnPath(es)
    ensures OnPath(es[..|es|-1])
  {
    hide IntentPath;
    var front, e := es[..|es|-1], es[|es|-1];
    forall i ensures IntentPath(IntentTypes(front, i)) {
      assert IntentPath(IntentTypes(es, i));
      if IsIntentEvent(e.eventType) && IntentId(e) == Some(i) {
        assert IntentTypes(es, i) == IntentTypes(front, i) + [e.eventType];
        PathFront(IntentTypes(front, i), e.eventType);
      } else {
        assert IntentTypes(es, i) == IntentTypes(front, i);
      }
    }
  }

  lemma EmptyOnPath()
    ensures OnPath([])
  {
  }

  /** The transition check is exact: no error if and only if the events of every intent are a path
      of the transition table. */
  lemma {:induction false} TransitionCheckExact(es: History)
    ensures TransitionErrors(es) == [] <==> OnPath(es)
  {
    hide LegalIntentEvent, OnPath;
    if es == [] {
      EmptyOnPath();
    } else {
      TransitionCheckExact(es[..|es|-1]);
      if OnPath(es[..|es|-1]) { OnPathStep(es); }
      if OnPath(es) { OnPathFront(es); }
    }
  }

  /** Event `n` is the last of the intent's events. */
  ghost predicate LastOf(es: History, i: string, n: nat) {
    && n < |es| && IsIntentEvent(es[n].eventType) && IntentId(es[n]) == Some(i)
    && forall k :: n < k < |es| ==> !(IsIntentEvent(es[k].eventType) && IntentId(es[k]) == Some(i))
  }

  lemma {:induction false} TypeIsLast(es: History, i: string)
    ensures i in LastTypes(es) <==> exists n: nat :: LastOf(es, i, n)
    ensures forall n: nat :: LastOf(es, i, n) ==> i in LastTypes(es) && LastTypes(es)[i] == es[n].eventType
  {
    hide IsIntentEvent, IntentId;
    if es != [] {
      var front, m := es[..|es|-1], |es| - 1;
      TypeIsLast(front, i);
      if IsIntentEvent(es[m].eventType) && IntentId(es[m]) == Some(i) {
        assert LastOf(es, i, m);
        assert forall n: nat :: LastOf(es, i, n) ==> n == m;
      } else {
        forall n: nat ensures LastOf(es, i, n) <==> LastOf(front, i, n) {
          if n < m { assert front[n] == es[n]; }
        }
      }
    }
  }

  /** Event `n` is one the transition table does not allow where it stands: the last event before it of the intent it
      names does not lead to it, or it is the first and no submission. */
  ghost predicate OutOfOrder(es: History, n: nat) {
    && n < |es| && IsIntentEvent(es[n].eventType) && IntentId(es[n]).Some?
    && if exists m: nat :: LastOf(es[..n], IntentId(es[n]).value, m)
       then exists m: nat :: LastOf(es[..n], IntentId(es[n]).value, m) && !Follows(es[m].eventType, es[n].eventType)
       else es[n].eventType != "intent_submitted" && es[n].eventType != "intent_rejected"
  }

  lemma LastInside(es: History, i: string, m: nat)
    requires LastOf(es, i, m)
    ensures m < |es| && forall k: nat :: LastOf(es, i, k) ==> k == m
  {
  }

  lemma OrderIs(es: History, n: nat)
    requires n < |es|
    ensures OutOfOrder(es, n) <==> !LegalIntentEvent(es[..n], es[n])
  {
    hide Follows, IsIntentEvent, IntentId, LastOf;
    if IntentId(es[n]).Some? {
      var i := IntentId(es[n]).value;
      TypeIsLast(es[..n], i);
      if m: nat :| LastOf(es[..n], i, m) { LastInside(es[..n], i, m); }
    }
  }

  lemma OrderInside(es: History, n: nat)
    requires OutOfOrder(es, n)
    ensures n < |es|
  {
  }

  /** The check reports exactly those events, each by its id. */
  lemma {:induction false} TransitionFinds(es: History, x: AuditError)
    ensures x in TransitionErrors(es) <==>
      exists n: nat :: OutOfOrder(es, n) && x == AuditError("ILLEGAL_TRANSITION", es[n].id)
  {
    hide OutOfOrder, LegalIntentEvent;
    forall n: nat | OutOfOrder(es, n) ensures n < |es| { OrderInside(es, n); }
    if es != [] {
      var front, m := es[..|es|-1], |es| - 1;
      TransitionFinds(front, x);
      OrderIs(es, m);
      forall n: nat | n < m ensures OutOfOrder(es, n) <==> OutOfOrder(front, n) {
        assert front[..n] == es[..n] && front[n] == es[n];
        OrderIs(es, n);
        OrderIs(front, n);
      }
      forall n: nat | OutOfOrder(front, n) ensures n < m { OrderInside(front, n); }
    }
  }

  /** The intents with an `intent_claimed` event. */
  function ClaimedIntents(es: History): set<string> {
    if es == [] then {}
    else
      var e := es[|es|-1];
      ClaimedIntents(es[..|es|-1]) + if e.eventType == "intent_claimed" && IntentId(e).Some? then {IntentId(e).value} else {}
  }

  predicate FirstClaim(before: History, e: Event) {
    e.eventType == "intent_claimed" && IntentId(e).Some? ==> IntentId(e).value !in ClaimedIntents(before)
  }

  function DuplicateClaimErrors(es: History): ErrorList {
    if es == [] then []
    else
      var front, e := es[..|es|-1], es[|es|-1];
      DuplicateClaimErrors(front) +
      if FirstClaim(front, e) then [] else [AuditError("DUPLICATE_CLAIM", IntentId(e).value)]
  }

  /** `check_duplicate_claims`. */
  method CheckDuplicateClaims(es: History) returns (errors: ErrorList)
    ensures errors == DuplicateClaimErrors(es)
  {
    errors := [];
    var seen: set<string> := {};
    for k := 0 to |es|
      invariant errors == DuplicateClaimErrors(es[..k]) && seen == ClaimedIntents(es[..k])
    {
      Upto(es, k);
      var e := es[k];
      if e.eventType == "intent_claimed" && IntentId(e).Some? {
        if IntentId(e).value in seen { errors := errors + [AuditError("DUPLICATE_CLAIM", IntentId(e).value)]; }
        seen := seen + {IntentId(e).value};
      }
    }
    assert es[..|es|] == es;
  }

  /** The event claims the intent. */
  predicate ClaimsIntent(e: Event, i: string) {
    e.eventType == "intent_claimed" && Name(Doc(e), "intent_id") == Some(i)
  }

  lemma {:induction false} ClaimedSometime(es: History, i: string)
    ensures i in ClaimedIntents(es) <==> exists n: nat :: n < |es| && ClaimsIntent(es[n], i)
  {
    hide Doc;
    if es != [] {
      var front := es[..|es|-1];
      ClaimedSometime(front, i);
      if n: nat :| n < |front| && ClaimsIntent(front[n], i) { assert ClaimsIntent(es[n], i); }
      if n: nat :| n < |es| && ClaimsIntent(es[n], i) {
        if n < |front| { assert ClaimsIntent(front[n], i); }
      }
    }
  }

  /** Event `n` claims an intent that an earlier event has claimed. */
  ghost predicate ClaimsAgain(es: History, n: nat, i: string) {
    n < |es| && ClaimsIntent(es[n], i) && exists m: nat :: m < n && ClaimsIntent(es[m], i)
  }

  /** The check reports exactly the intents claimed again. */
  lemma {:induction false} DuplicateClaimFinds(es: History, x: AuditError)
    ensures x in DuplicateClaimErrors(es) <==> exists n: nat, i :: ClaimsAgain(es, n, i) && x == AuditError("DUPLICATE_CLAIM", i)
  {
    hide Doc;
    if es != [] {
      var front, m := es[..|es|-1], |es| - 1;
      DuplicateClaimFinds(front, x);
      ClaimedSometime(front, x.id);
      hide ClaimsIntent, ClaimedIntents;
      forall n: nat, i | n < m ensures ClaimsAgain(es, n, i) <==> ClaimsAgain(front, n, i) { }
      LastClaimsAgain(es, x.id);
      if n: nat, i :| ClaimsAgain(front, n, i) && x == AuditError("DUPLICATE_CLAIM", i) { assert ClaimsAgain(es, n, i); }
    }
  }

  lemma DuplicateClaimExact(es: History)
    ensures DuplicateClaimErrors(es) == [] <==> forall n: nat, i :: !ClaimsAgain(es, n, i)
  {
    hide DuplicateClaimErrors, ClaimsAgain;
    if DuplicateClaimErrors(es) != [] { DuplicateClaimFinds(es, DuplicateClaimErrors(es)[0]); }
    if n: nat, i :| ClaimsAgain(es, n, i) { DuplicateClaimFinds(es, AuditError("DUPLICATE_CLAIM", i)); }
  }

  lemma LastClaimsAgain(es: History, i: string)
    requires es != []
    ensures var front, m := es[..|es|-1], |es| - 1;
      ClaimsAgain(es, m, i) <==> !FirstClaim(front, es[m]) && IntentId(es[m]) == Some(i)
  {
    hide Doc;
    ClaimedSometime(es[..|es|-1], i);
  }

  /** A claimed intent has moved past submission: its last event is the claim or an outcome. */
  lemma {:induction false} ClaimedMovedOn(es: History, i: string)
    requires TransitionErrors(es) == []
    ensures i in ClaimedIntents(es) <==>
      i in LastTypes(es) && LastTypes(es)[i] in {"intent_claimed", "intent_completed", "intent_failed"}
  {
    if es != [] {
      assert LegalIntentEvent(es[..|es|-1], es[|es|-1]);
      ClaimedMovedOn(es[..|es|-1], i);
    }
  }

  /** A clean transition check implies a clean duplicate-claim check. */
  lemma {:induction false} CleanTransitionsCleanClaims(es: History)
    requires TransitionErrors(es) == []
    ensures DuplicateClaimErrors(es) == []
  {
    if es != [] {
      var front, e := es[..|es|-1], es[|es|-1];
      assert LegalIntentEvent(front, e);
      CleanTransitionsCleanClaims(front);
      if IntentId(e).Some? { ClaimedMovedOn(front, IntentId(e).value); }
    }
  }

  function ClaimantStep(t: map<string, string>, e: Event): map<string, string> {
    if e.eventType == "intent_claimed" && IntentId(e).Some? && WorkerIn(e).Some?
    then t[IntentId(e).value := WorkerIn(e).value] else t
  }

  /** The worker each intent was last claimed for. */
  function Claimants(es: History): map<string, string> {
    if es == [] then map[] else ClaimantStep(Claimants(es[..|es|-1]), es[|es|-1])
  }

  predicate SameWorker(before: History, e: Event) {
    (e.eventType == "intent_completed" || e.eventType == "intent_failed") && IntentId(e).Some?
      && IntentId(e).value in Claimants(before)
    ==> WorkerIn(e) == Some(Claimants(before)[IntentId(e).value])
  }

  function WorkerErrors(es: History): ErrorList {
    if es == [] then []
    else
      var front, e := es[..|es|-1], es[|es|-1];
      WorkerErrors(front) + When(!SameWorker(front, e), "WORKER_NAME_MISMATCH", e.id)
  }

  lemma WorkerStep(before: History, e: Event)
    ensures Claimants(before + [e]) == ClaimantStep(Claimants(before), e)
    ensures WorkerErrors(before + [e]) == WorkerErrors(before) + When(!SameWorker(before, e), "WORKER_NAME_MISMATCH", e.id)
  {
    hide ClaimantStep, SameWorker;
    Snoc(before, e);
  }

  /** `check_worker_name_consistency`. */
  method CheckWorkerNameConsistency(es: History) returns (errors: ErrorList)
    ensures errors == WorkerErrors(es)
  {
    hide IntentId, WorkerIn, WorkerErrors, Claimants;
    errors := [];
    var claimant: map<string, string> := map[];
    NoWorkers();
    for k := 0 to |es|
      invariant errors == WorkerErrors(es[..k]) && claimant == Claimants(es[..k])
    {
      Upto(es, k);
      var e := es[k];
      WorkerStep(es[..k], e);
      if IntentId(e).Some? {
        var i := IntentId(e).value;
        if e.eventType == "intent_claimed" {
          if WorkerIn(e).Some? { claimant := claimant[i := WorkerIn(e).value]; }
        } else if e.eventType == "intent_completed" || e.eventType == "intent_failed" {
          if i in claimant && WorkerIn(e) != Some(claimant[i]) {
            errors := errors + [AuditError("WORKER_NAME_MISMATCH", e.id)];
          }
        }
      }
    }
    assert es[..|es|] == es;
  }

  lemma NoWorkers()
    ensures WorkerErrors([]) == [] && Claimants([]) == map[]
  {
  }

  /** The event claims the intent for a worker it names. */
  predicate ClaimsFor(e: Event, i: string) {
    e.eventType == "intent_claimed" && Name(Doc(e), "intent_id") == Some(i) && Text(Doc(e), "worker_name").Some?
  }

  /** Event `m` is the last such claim before `n`. */
  ghost predicate LastClaim(es: History, i: string, m: nat, n: nat) {
    m < n <= |es| && ClaimsFor(es[m], i) && forall k :: m < k < n ==> !ClaimsFor(es[k], i)
  }

  /** The event completes or fails the intent. */
  predicate Concludes(e: Event, i: string) {
    (e.eventType == "intent_completed" || e.eventType == "intent_failed") && Name(Doc(e), "intent_id") == Some(i)
  }

  /** Event `n` concludes an intent last claimed, at `m`, for a worker that it does not name. */
  ghost predicate OtherWorker(es: History, i: string, m: nat, n: nat) {
    LastClaim(es, i, m, n) && n < |es| && Concludes(es[n], i) && Text(Doc(es[n]), "worker_name") != Text(Doc(es[m]), "worker_name")
  }

  lemma {:induction false} ClaimantIsLast(es: History, i: string)
    ensures i in Claimants(es) <==> exists m: nat :: LastClaim(es, i, m, |es|)
    ensures forall m: nat :: LastClaim(es, i, m, |es|) ==> i in Claimants(es) && Some(Claimants(es)[i]) == Text(Doc(es[m]), "worker_name")
  {
    hide Doc;
    if es != [] {
      var front, k := es[..|es|-1], |es| - 1;
      ClaimantIsLast(front, i);
      if ClaimsFor(es[k], i) {
        assert LastClaim(es, i, k, |es|);
        assert forall m: nat :: LastClaim(es, i, m, |es|) ==> m == k;
      } else {
        forall m: nat ensures LastClaim(es, i, m, |es|) <==> LastClaim(front, i, m, |front|) {
          if m < k { assert front[m] == es[m]; }
        }
      }
    }
  }

  lemma ClaimBefore(es: History, i: string, m: nat, n: nat)
    requires n <= |es|
    ensures LastClaim(es, i, m, n) <==> LastClaim(es[..n], i, m, |es[..n]|)
  {
    hide ClaimsFor;
  }

  lemma WorkerIs(es: History, n: nat)
    requires n < |es|
    ensures !SameWorker(es[..n], es[n]) <==> exists i, m: nat :: OtherWorker(es, i, m, n)
  {
    hide Doc, ClaimsFor, LastClaim;
    if IntentId(es[n]).Some? {
      var i := IntentId(es[n]).value;
      ClaimantIsLast(es[..n], i);
      forall m: nat ensures LastClaim(es, i, m, n) <==> LastClaim(es[..n], i, m, |es[..n]|) { ClaimBefore(es, i, m, n); }
      forall m: nat | LastClaim(es, i, m, n) ensures m < n { ClaimInside(es, i, m, n); }
      if m: nat :| LastClaim(es[..n], i, m, |es[..n]|) {
        assert LastClaim(es, i, m, n) && es[..n][m] == es[m];
        assert OtherWorker(es, i, m, n) <==> Concludes(es[n], i) && Text(Doc(es[n]), "worker_name") != Text(Doc(es[m]), "worker_name");
      }
    }
  }

  lemma ClaimInside(es: History, i: string, m: nat, n: nat)
    requires LastClaim(es, i, m, n)
    ensures m < n <= |es|
  {
  }

  /** The check reports exactly the events that conclude an intent for another worker than it was claimed for. */
  lemma {:induction false} WorkerFinds(es: History, x: AuditError)
    ensures x in WorkerErrors(es) <==>
      exists i, m: nat, n: nat :: OtherWorker(es, i, m, n) && x == AuditError("WORKER_NAME_MISMATCH", es[n].id)
  {
    hide OtherWorker, SameWorker;
    forall i, m: nat, n: nat | OtherWorker(es, i, m, n) ensures n < |es| { OtherInside(es, i, m, n); }
    if es != [] {
      var front, k := es[..|es|-1], |es| - 1;
      WorkerFinds(front, x);
      WorkerIs(es, k);
      forall i, m: nat, n: nat | n < k ensures OtherWorker(es, i, m, n) <==> OtherWorker(front, i, m, n) {
        OtherSame(es, i, m, n);
      }
      forall i, m: nat, n: nat | OtherWorker(front, i, m, n) ensures n < k { OtherInside(front, i, m, n); }
    }
  }

  lemma OtherInside(es: History, i: string, m: nat, n: nat)
    requires OtherWorker(es, i, m, n)
    ensures n < |es|
  {
  }

  lemma OtherSame(es: History, i: string, m: nat, n: nat)
    requires es != [] && n < |es| - 1
    ensures OtherWorker(es, i, m, n) <==> OtherWorker(es[..|es|-1], i, m, n)
  {
    hide ClaimsFor, Concludes, Doc;
  }

  /** The check is exact: no error if and only if every event that completes or fails an intent names the worker of
      the last claim before it that names one. */
  lemma WorkerCheckExact(es: History)
    ensures WorkerErrors(es) == [] <==>
      forall i, m: nat, n: nat :: LastClaim(es, i, m, n) && n < |es| && Concludes(es[n], i) ==>
        Text(Doc(es[n]), "worker_name") == Text(Doc(es[m]), "worker_name")
  {
    hide LastClaim, Concludes, WorkerErrors, Doc;
    forall i, m: nat, n: nat | LastClaim(es, i, m, n) ensures m < n <= |es| { ClaimInside(es, i, m, n); }
    if WorkerErrors(es) != [] { WorkerFinds(es, WorkerErrors(es)[0]); }
    if i, m: nat, n: nat :| LastClaim(es, i, m, n) && n < |es| && Concludes(es[n], i) && WorkerIn(es[n]) != WorkerIn(es[m]) {
      assert OtherWorker(es, i, m, n);
      WorkerFinds(es, AuditError("WORKER_NAME_MISMATCH", es[n].id));
    }
  }

  lemma WorkersQuiet(es: History)
    ensures WorkerErrors(es) == [] <==> forall i, m: nat, n: nat :: !OtherWorker(es, i, m, n)
  {
    hide WorkerErrors, OtherWorker;
    forall i, m: nat, n: nat | OtherWorker(es, i, m, n) ensures n < |es| { OtherInside(es, i, m, n); }
    if WorkerErrors(es) != [] { WorkerFinds(es, WorkerErrors(es)[0]); }
    if i, m: nat, n: nat :| OtherWorker(es, i, m, n) { WorkerFinds(es, AuditError("WORKER_NAME_MISMATCH", es[n].id)); }
  }

  // ---------------------------------------------------------------- the query

  /** `get_intent_status`: walk the intent events that refer to the intent, stop at a terminal one. */
  function StatusQuery(es: History, i: string): Option<string> {
    if es == [] then None
    else
      var before, e := StatusQuery(es[..|es|-1], i), es[|es|-1];
      if before.Some? && Terminal(before.value) then before
      else if IsIntentEvent(e.eventType) && Refers(e, "intent_id", i) then Some(StatusOf(e.eventType))
      else before
  }

  lemma {:induction false} TerminalStays(es: History, n: nat, i: string)
    requires n <= |es| && StatusQuery(es[..n], i).Some? && Terminal(StatusQuery(es[..n], i).value)
    ensures StatusQuery(es, i) == StatusQuery(es[..n], i)
  {
    if n < |es| {
      TerminalStays(es[..|es|-1], n, i) by { assert es[..|es|-1][..n] == es[..n]; }
      assert es[..|es|-1][..n] == es[..n];
    } else {
      assert es[..n] == es;
    }
  }

  method GetIntentStatus(es: History, i: string) returns (status: Option<string>)
    ensures status == StatusQuery(es, i)
  {
    status := None;
    for k := 0 to |es|
      invariant status == StatusQuery(es[..k], i) && !(status.Some? && Terminal(status.value))
    {
      Upto(es, k);
      if IsIntentEvent(es[k].eventType) && Refers(es[k], "intent_id", i) {
        status := Some(StatusOf(es[k].eventType));
        if Terminal(status.value) {
          TerminalStays(es, k + 1, i);
          return;
        }
      }
    }
    assert es[..|es|] == es;
  }

  /** An intent event mentions its own intent and no other, and its payload status is the one
      its type stands for. */
  ghost predicate IntentShaped(e: Event) {
    IsIntentEvent(e.eventType) ==>
      && IntentId(e).Some? && StatusIn(e) == Some(StatusOf(e.eventType))
      && forall i :: Mentioned(e, "intent_id", i) <==> i == IntentId(e).value
  }

  ghost predicate AllIntentShaped(es: History) {
    forall k :: 0 <= k < |es| ==> IntentShaped(es[k])
  }

  /** Where the lookup is exact, the query gives the rebuilt and expected status on well-shaped histories. */
  lemma {:induction false} QueryIsFold(es: History, i: string)
    requires AllIntentShaped(es) && Exact(es, "intent_id", i)
    ensures StatusQuery(es, i) == if i in Intents(es) then Some(Intents(es)[i].status) else None
  {
    hide Refers, Mentioned;
    if es != [] {
      assert IntentShaped(es[|es|-1]);
      ExactFront(es, "intent_id", i);
      QueryIsFold(es[..|es|-1], i);
    }
  }

  /** Nothing appended after a terminal status changes it. */
  lemma {:induction false} TerminalIsFinal(es: History, more: History, i: string)
    requires StatusQuery(es, i).Some? && Terminal(StatusQuery(es, i).value)
    ensures StatusQuery(es + more, i) == StatusQuery(es, i)
  {
    assert (es + more)[..|es|] == es;
    TerminalStays(es + more, |es|, i);
  }

  /** The table row of an intent is that of its last event, and a running intent's row names the
      worker that claimed it. */
  predicate Tracks(es: History, i: string) {
    var t, last, w := Intents(es), LastTypes(es), Claimants(es);
    && (i in t <==> i in last)
    && (i in t ==> IsIntentEvent(last[i]) && t[i].status == StatusOf(last[i]))
    && (i in t && last[i] == "intent_claimed" && t[i].workerName.Some? ==> i in w && w[i] == t[i].workerName.value)
  }

  lemma TracksStep(es: History, e: Event, i: string)
    requires Tracks(es, i) && IsIntentEvent(e.eventType) && IntentId(e) == Some(i)
    requires StatusIn(e) == Some(StatusOf(e.eventType)) && LegalIntentEvent(es, e)
    ensures Tracks(es + [e], i)
  {
    hide IntentId, StatusIn;
    Snoc(es, e);
  }

  lemma TracksOther(es: History, e: Event, i: string)
    requires Tracks(es, i) && (IsIntentEvent(e.eventType) ==> IntentId(e) != Some(i))
    ensures Tracks(es + [e], i)
  {
    hide IntentId, StatusIn, StatusOf;
    Snoc(es, e);
  }

  /** So it is while history is legal and well shaped. */
  lemma {:induction false} RowTracksLast(es: History, i: string)
    requires AllIntentShaped(es) && TransitionErrors(es) == []
    ensures Tracks(es, i)
  {
    hide Tracks, LegalIntentEvent;
    if es == [] {
      TracksNothing(i);
    } else {
      var front, e := es[..|es|-1], es[|es|-1];
      assert IntentShaped(e) && LegalIntentEvent(front, e);
      RowTracksLast(front, i);
      Unsnoc(es);
      if IsIntentEvent(e.eventType) && IntentId(e) == Some(i) { TracksStep(front, e, i); } else { TracksOther(front, e, i); }
    }
  }

  lemma TracksNothing(i: string)
    ensures Tracks([], i)
  {
  }

  // ---------------------------------------------------------------- known intents

  /** The intents some submission event names. */
  function KnownIntents(es: History): set<string> {
    if es == [] then {}
    else
      var e := es[|es|-1];
      KnownIntents(es[..|es|-1]) +
      if IsSubmission(e.eventType) && IntentId(e).Some? then {IntentId(e).value} else {}
  }

  method CollectKnownIntents(es: History) returns (known: set<string>)
    ensures known == KnownIntents(es)
  {
    known := {};
    for k := 0 to |es|
      invariant known == KnownIntents(es[..k])
    {
      Upto(es, k);
      if IsSubmission(es[k].eventType) && IntentId(es[k]).Some? {
        known := known + {IntentId(es[k]).value};
      }
    }
    assert es[..|es|] == es;
  }

  /** The event submits the intent, accepted or rejected. */
  predicate SubmitsIntent(e: Event, i: string) {
    (e.eventType == "intent_submitted" || e.eventType == "intent_rejected") && Name(Doc(e), "intent_id") == Some(i)
  }

  /** An intent is known if and only if some event submits it. */
  lemma {:induction false} KnownSometime(es: History, i: string)
    ensures i in KnownIntents(es) <==> exists n: nat :: n < |es| && SubmitsIntent(es[n], i)
  {
    hide Doc;
    if es != [] {
      var front := es[..|es|-1];
      KnownSometime(front, i);
      if n: nat :| n < |front| && SubmitsIntent(front[n], i) { assert SubmitsIntent(es[n], i); }
      if n: nat :| n < |es| && SubmitsIntent(es[n], i) {
        if n < |front| { assert SubmitsIntent(front[n], i); }
      }
    }
  }

  lemma {:induction false} KnownNonEmpty(es: History, i: string)
    requires i in KnownIntents(es)
    ensures i != ""
  {
    if i !in KnownIntents(es[..|es|-1]) {
      assert IntentId(es[|es|-1]) == Some(i);
    } else {
      KnownNonEmpty(es[..|es|-1], i);
    }
  }

  lemma {:induction false} NamesNonEmpty(es: History)
    ensures "" !in LastTypes(es)
  {
    if es != [] { NamesNonEmpty(es[..|es|-1]); }
  }

  /** An intent with an inbox row has been seen. */
  lemma {:induction false} EntriesSeen(es: History, i: string)
    requires i in Entries(es)
    ensures i in LastTypes(es)
  {
    hide StatusIn, Text;
    if es != [] && i in Entries(es[..|es|-1]) { EntriesSeen(es[..|es|-1], i); }
  }

  /** A legal history knows every intent from its submission. */
  lemma {:induction false} SeenIsKnown(es: History, i: string)
    requires TransitionErrors(es) == [] && i in LastTypes(es)
    ensures i in KnownIntents(es)
  {
    var front, e := es[..|es|-1], es[|es|-1];
    assert LegalIntentEvent(front, e);
    if i in LastTypes(front) { SeenIsKnown(front, i); }
  }

  // ---------------------------------------------------------------- the payload read back

  /** The first submission that refers to the intent. */
  function FirstSubmission(es: History, i: string): Option<Event> {
    if es == [] then None
    else
      var before, e := FirstSubmission(es[..|es|-1], i), es[|es|-1];
      if before.Some? then before
      else if e.eventType == "intent_submitted" && Refers(e, "intent_id", i) then Some(e)
      else None
  }

  /** `_read_intent_payload`: the payload of the first submission that refers to the intent. */
  function ReadPayload(es: History, i: string): Option<Json> {
    var first := FirstSubmission(es, i);
    if first.Some? && "payload" in Doc(first.value) && Doc(first.value)["payload"].Obj?
    then Some(Doc(first.value)["payload"]) else None
  }

  /** `_read_intent_payload`. */
  method ReadIntentPayload(es: History, i: string) returns (payload: Option<Json>)
    ensures payload == ReadPayload(es, i)
  {
    hide Refers;
    var first: Option<Event> := None;
    for k := 0 to |es|
      invariant first == FirstSubmission(es[..k], i)
    {
      Upto(es, k);
      if first.None? && es[k].eventType == "intent_submitted" && Refers(es[k], "intent_id", i) { first := Some(es[k]); }
    }
    assert es[..|es|] == es;
    if first.None? { return None; }
    var m := Doc(first.value);
    return if "payload" in m && m["payload"].Obj? then Some(m["payload"]) else None;
  }

  /** What was once read stays what is read. */
  lemma PayloadStays(es: History, e: Event, i: string)
    requires ReadPayload(es, i).Some?
    ensures ReadPayload(es + [e], i) == ReadPayload(es, i)
  {
    hide Refers;
    Snoc(es, e);
  }
}
