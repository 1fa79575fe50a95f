/** The claim store's replay rule, `intent_claim_projection` and its rebuild, and the auditor's
    checks of claim history. */
module Claims {
  import opened Strings
  import opened Json
  import opened Ledger
  import opened State
  import opened Errors

  const ESTABLISHED := "intent_claim_established"
  const RELEASED := "intent_released"

  predicate IsClaimEvent(t: string) {
    t == ESTABLISHED || t == RELEASED
  }

  function IntentId(e: Event): Option<string> {
    Name(Doc(e), "intent_id")
  }

  // ---------------------------------------------------------------- replay of one intent

  datatype ClaimInfo = ClaimInfo(intentId: string, row: ClaimRow)

  /** An established claim that names its claim, its owner and its intent. */
  predicate Establishes(e: Event) {
    && e.eventType == ESTABLISHED && Name(Doc(e), "claim_id").Some?
    && Name(Doc(e), "owner_id").Some? && IntentId(e).Some?
  }

  function InfoOf(e: Event): ClaimInfo
    requires Establishes(e)
  {
    ClaimInfo(
      IntentId(e).value,
      ClaimRow(Name(Doc(e), "claim_id").value, Name(Doc(e), "owner_id").value, e.createdAt, e.id))
  }

  /** A release clears a claim only when claim and owner both match. */
  predicate Releases(e: Event, c: ClaimRow) {
    && e.eventType == RELEASED
    && Text(Doc(e), "claim_id") == Some(c.claimId) && Text(Doc(e), "owner_id") == Some(c.ownerId)
  }

  function ReplayStep(active: Option<ClaimInfo>, e: Event): Option<ClaimInfo> {
    match active
    case None => if Establishes(e) then Some(InfoOf(e)) else None
    case Some(c) => if Releases(e, c.row) then None else active
  }

  /** The claim left active by one intent's events: the first claim wins until it is released. */
  function Replay(es: History): Option<ClaimInfo> {
    if es == [] then None else ReplayStep(Replay(es[..|es|-1]), es[|es|-1])
  }

  /** `replay_claim_events`. */
  method ReplayClaimEvents(es: History) returns (active: Option<ClaimInfo>)
    ensures active == Replay(es)
  {
    active := None;
    for k := 0 to |es|
      invariant active == Replay(es[..k])
    {
      Upto(es, k);
      var e := es[k];
      if e.eventType == ESTABLISHED {
        if active.None? && Establishes(e) { active := Some(InfoOf(e)); }
      } else if e.eventType == RELEASED {
        if active.Some? && Releases(e, active.value.row) { active := None; }
      }
    }
    assert es[..|es|] == es;
  }

  /** The claim and release events of one intent, in ledger order. */
  function EventsOf(es: History, i: string): History {
    if es == [] then []
    else
      var e := es[|es|-1];
      EventsOf(es[..|es|-1], i) + if IsClaimEvent(e.eventType) && Text(Doc(e), "intent_id") == Some(i) then [e] else []
  }

  /** Those of them that the lookup finds. */
  function Looked(es: History, i: string): History {
    if es == [] then []
    else
      var e := es[|es|-1];
      Looked(es[..|es|-1], i) +
      if IsClaimEvent(e.eventType) && Refers(e, "intent_id", i) && Text(Doc(e), "intent_id") == Some(i) then [e] else []
  }

  /** `get_claim`: look the intent's events up, keep those that name it, then replay them. */
  method GetClaim(es: History, i: string) returns (active: Option<ClaimInfo>)
    ensures active == Replay(Looked(es, i))
  {
    hide Refers;
    var selected: History := [];
    for k := 0 to |es|
      invariant selected == Looked(es[..k], i)
    {
      Upto(es, k);
      if IsClaimEvent(es[k].eventType) && Refers(es[k], "intent_id", i) && Text(Doc(es[k]), "intent_id") == Some(i) {
        selected := selected + [es[k]];
      }
    }
    assert es[..|es|] == es;
    active := ReplayClaimEvents(selected);
  }

  /** Where the lookup is exact it misses none. */
  lemma {:induction false} LookedIsAll(es: History, i: string)
    requires Exact(es, "intent_id", i)
    ensures Looked(es, i) == EventsOf(es, i)
  {
    hide Refers;
    if es != [] {
      ExactFront(es, "intent_id", i);
      LookedIsAll(es[..|es|-1], i);
    }
  }

  // ---------------------------------------------------------------- intent_claim_projection

  function ClaimStep(t: ClaimTable, e: Event): ClaimTable {
    if !IsClaimEvent(e.eventType) || IntentId(e).None? then t
    else
      var i := IntentId(e).value;
      if i in t then (if Releases(e, t[i]) then t - {i} else t)
      else if Establishes(e) then t[i := InfoOf(e).row]
      else t
  }

  /** All active claims, one event at a time. */
  function Claims(es: History): ClaimTable {
    if es == [] then map[] else ClaimStep(Claims(es[..|es|-1]), es[|es|-1])
  }

  /** The table's row for `i` is the replayed claim. */
  predicate RowIs(t: ClaimTable, i: string, active: Option<ClaimInfo>) {
    (i in t <==> active.Some?) && (i in t ==> active == Some(ClaimInfo(i, t[i])))
  }

  lemma StepsAgree(t: ClaimTable, i: string, active: Option<ClaimInfo>, e: Event)
    requires i != "" && RowIs(t, i, active)
    ensures RowIs(ClaimStep(t, e), i,
      if IsClaimEvent(e.eventType) && Text(Doc(e), "intent_id") == Some(i) then ReplayStep(active, e) else active)
  {
    hide Doc;
  }

  /** Replaying each intent on its own gives the table row by row. */
  lemma {:induction false} TableIsReplay(es: History, i: string)
    requires i != ""
    ensures RowIs(Claims(es), i, Replay(EventsOf(es, i)))
  {
    if es != [] {
      var front, e := es[..|es|-1], es[|es|-1];
      TableIsReplay(front, i);
      hide RowIs, ClaimStep, ReplayStep;
      StepsAgree(Claims(front), i, Replay(EventsOf(front, i)), e);
      if IsClaimEvent(e.eventType) && Text(Doc(e), "intent_id") == Some(i) {
        Snoc(EventsOf(front, i), e);
      } else {
        assert EventsOf(es, i) == EventsOf(front, i);
      }
    }
  }

  type Groups = map<string, History>

  /** Events grouped by the intent they name, each group in ledger order. */
  ghost predicate Grouped(g: Groups, es: History) {
    forall i :: i != "" ==> (i in g <==> EventsOf(es, i) != []) && (i in g ==> g[i] == EventsOf(es, i))
  }

  /** The intents in the order of their first claim event. */
  function FirstNamed(es: History): seq<string> {
    if es == [] then []
    else
      var before, e := FirstNamed(es[..|es|-1]), es[|es|-1];
      before + if IsClaimEvent(e.eventType) && IntentId(e).Some? && IntentId(e).value !in before then [IntentId(e).value] else []
  }

  /** `_group_claim_events_by_intent`, with the dict's insertion order. */
  method GroupByIntent(es: History) returns (groups: Groups, order: seq<string>)
    ensures "" !in groups && Grouped(groups, es)
    ensures order == FirstNamed(es) && forall i :: i in order <==> i in groups
  {
    groups, order := map[], [];
    for k := 0 to |es|
      invariant "" !in groups && Grouped(groups, es[..k])
      invariant order == FirstNamed(es[..k]) && forall i :: i in order <==> i in groups
    {
      Upto(es, k);
      ghost var was := groups;
      if IsClaimEvent(es[k].eventType) && IntentId(es[k]).Some? {
        var i := IntentId(es[k]).value;
        if i !in groups { order := order + [i]; }
        groups := groups[i := (if i in groups then groups[i] else []) + [es[k]]];
      }
      GroupStep(was, groups, es[..k], es[k]);
    }
    assert es[..|es|] == es;
  }

  lemma GroupStep(was: Groups, now: Groups, es: History, e: Event)
    requires Grouped(was, es)
    requires now ==
      if IsClaimEvent(e.eventType) && IntentId(e).Some?
      then was[IntentId(e).value := (if IntentId(e).value in was then was[IntentId(e).value] else []) + [e]]
      else was
    ensures Grouped(now, es + [e])
  {
    Snoc(es, e);
    forall i | i != ""
      ensures (i in now <==> EventsOf(es + [e], i) != []) && (i in now ==> now[i] == EventsOf(es + [e], i))
    {
      if IsClaimEvent(e.eventType) && Text(Doc(e), "intent_id") == Some(i) {
        assert EventsOf(es + [e], i) == EventsOf(es, i) + [e];
      } else {
        assert EventsOf(es + [e], i) == EventsOf(es, i);
      }
    }
  }

  /** The rows `replay_claim_events` gives for the first groups of an enumeration. */
  method ReplayGroups(groups: Groups) returns (table: ClaimTable)
    ensures forall i :: i in table <==> i in groups && Replay(groups[i]).Some?
    ensures forall i :: i in table ==> table[i] == Replay(groups[i]).value.row
  {
    table := map[];
    var keys := SortedKeys(groups.Keys);
    for k := 0 to |keys|
      invariant forall i :: i in table <==> i in keys[..k] && Replay(groups[i]).Some?
      invariant forall i :: i in table ==> table[i] == Replay(groups[i]).value.row
    {
      assert keys[..k+1] == keys[..k] + [keys[k]];
      var active := ReplayClaimEvents(groups[keys[k]]);
      if active.Some? { table := table[keys[k] := active.value.row]; }
    }
    assert keys[..|keys|] == keys;
  }

  lemma GroupedReplayIsTable(groups: Groups, table: ClaimTable, es: History)
    requires "" !in groups && Grouped(groups, es)
    requires forall i :: i in table <==> i in groups && Replay(groups[i]).Some?
    requires forall i :: i in table ==> table[i] == Replay(groups[i]).value.row
    ensures table == Claims(es)
  {
    NoEmptyName(es);
    forall i ensures (i in table <==> i in Claims(es)) && (i in table ==> table[i] == Claims(es)[i]) {
      if i != "" { TableIsReplay(es, i); }
    }
  }

  lemma {:induction false} NoEmptyName(es: History)
    ensures "" !in Claims(es)
  {
    if es != [] { NoEmptyName(es[..|es|-1]); }
  }

  /** `rebuild_claim_projection`: group by intent, replay each group. */
  method RebuildClaims(db: Database)
    modifies db`claims
    ensures db.claims == Claims(db.events)
  {
    var groups, order := GroupByIntent(db.events);
    var table := ReplayGroups(groups);
    GroupedReplayIsTable(groups, table, db.events);
    db.claims := table;
  }

  /** `compute_expected_claim_projection`. */
  method ComputeExpectedClaims(es: History) returns (expected: ClaimTable)
    ensures expected == Claims(es)
  {
    var groups, order := GroupByIntent(es);
    expected := ReplayGroups(groups);
    GroupedReplayIsTable(groups, expected, es);
  }

  // ---------------------------------------------------------------- check_claim_projection

  function ClaimRowErrors(actual: ClaimTable, expected: ClaimTable): string -> ErrorList {
    (i: string) =>
      if i !in expected then []
      else if i !in actual then [AuditError("CLAIM_PROJECTION_MISMATCH", i)]
      else
        When(actual[i].claimId != expected[i].claimId || actual[i].ownerId != expected[i].ownerId,
             "CLAIM_PROJECTION_MISMATCH", i) +
        When(actual[i].claimedAt != expected[i].claimedAt, "CLAIM_PROJECTION_UPDATED_AT_MISMATCH", i) +
        When(actual[i].lastEventId != expected[i].lastEventId, "CLAIM_PROJECTION_LAST_EVENT_ID_MISMATCH", i)
  }

  /** `check_claim_projection`. */
  method CheckClaimProjection(actual: ClaimTable, es: History) returns (errors: ErrorList)
    ensures errors ==
      Collect(SortedKeys(Claims(es).Keys), ClaimRowErrors(actual, Claims(es))) +
      Collect(SortedKeys(actual.Keys - Claims(es).Keys), Unexpected("CLAIM_PROJECTION_UNEXPECTED_ENTRY"))
  {
    var expected := ComputeExpectedClaims(es);
    errors := Report(SortedKeys(expected.Keys), ClaimRowErrors(actual, expected));
    var more := Report(SortedKeys(actual.Keys - expected.Keys), Unexpected("CLAIM_PROJECTION_UNEXPECTED_ENTRY"));
    errors := errors + more;
  }

  lemma ClaimRowsEmpty(actual: ClaimTable, expected: ClaimTable)
    ensures Collect(SortedKeys(expected.Keys), ClaimRowErrors(actual, expected)) == []
       <==> forall i :: i in expected ==> i in actual && actual[i] == expected[i]
  {
    var of := ClaimRowErrors(actual, expected);
    CollectEmpty(SortedKeys(expected.Keys), of);
    forall i | i in expected
      ensures of(i) == [] <==> (i in actual && actual[i] == expected[i])
    {
    }
  }

  /** What the comparison has to say of the claim on an intent. */
  predicate RowWrong(actual: ClaimTable, expected: ClaimTable, i: string, code: string) {
    if i !in expected then i in actual && code == "CLAIM_PROJECTION_UNEXPECTED_ENTRY"
    else if i !in actual then code == "CLAIM_PROJECTION_MISMATCH"
    else
      || (code == "CLAIM_PROJECTION_MISMATCH"
          && !(actual[i].claimId == expected[i].claimId && actual[i].ownerId == expected[i].ownerId))
      || (code == "CLAIM_PROJECTION_UPDATED_AT_MISMATCH" && actual[i].claimedAt != expected[i].claimedAt)
      || (code == "CLAIM_PROJECTION_LAST_EVENT_ID_MISMATCH" && actual[i].lastEventId != expected[i].lastEventId)
  }

  lemma ClaimRowFinds(actual: ClaimTable, expected: ClaimTable, i: string, x: AuditError)
    ensures x in ClaimRowErrors(actual, expected)(i) <==> x.id == i && i in expected && RowWrong(actual, expected, i, x.code)
  {
    if i in expected && i in actual {
      WhenFinds(actual[i].claimId != expected[i].claimId || actual[i].ownerId != expected[i].ownerId, "CLAIM_PROJECTION_MISMATCH", i, x);
      WhenFinds(actual[i].claimedAt != expected[i].claimedAt, "CLAIM_PROJECTION_UPDATED_AT_MISMATCH", i, x);
      WhenFinds(actual[i].lastEventId != expected[i].lastEventId, "CLAIM_PROJECTION_LAST_EVENT_ID_MISMATCH", i, x);
      hide When;
    }
  }

  /** It reports exactly that. */
  lemma ClaimErrorsFind(actual: ClaimTable, expected: ClaimTable, x: AuditError)
    ensures x in Collect(SortedKeys(expected.Keys), ClaimRowErrors(actual, expected)) +
                 Collect(SortedKeys(actual.Keys - expected.Keys), Unexpected("CLAIM_PROJECTION_UNEXPECTED_ENTRY"))
       <==> RowWrong(actual, expected, x.id, x.code)
  {
    forall i { ClaimRowFinds(actual, expected, i, x); }
    hide ClaimRowErrors, Collect, Unexpected;
    ReportFinds(SortedKeys(expected.Keys), ClaimRowErrors(actual, expected), x);
    UnexpectedFinds(actual.Keys - expected.Keys, "CLAIM_PROJECTION_UNEXPECTED_ENTRY", x);
  }

  /** The comparison is exact: no error if and only if the tables are equal. */
  lemma ClaimErrorsEmpty(actual: ClaimTable, expected: ClaimTable)
    ensures Collect(SortedKeys(expected.Keys), ClaimRowErrors(actual, expected)) +
            Collect(SortedKeys(actual.Keys - expected.Keys), Unexpected("CLAIM_PROJECTION_UNEXPECTED_ENTRY")) == []
       <==> actual == expected
  {
    hide ClaimRowErrors, Collect, Unexpected;
    ClaimRowsEmpty(actual, expected);
    UnexpectedEmpty(actual.Keys - expected.Keys, "CLAIM_PROJECTION_UNEXPECTED_ENTRY");
    if actual.Keys - expected.Keys == {} && forall i :: i in expected ==> i in actual && actual[i] == expected[i] {
      assert forall i :: i in actual ==> i in actual.Keys - expected.Keys || i in expected;
      assert actual == expected;
    }
  }

  /** On every history, legal or not, rebuilding the claim table and then checking it reports nothing. */
  method RebuildPassesAudit(db: Database) returns (errors: ErrorList)
    modifies db`claims
    ensures errors == [] && db.claims == Claims(db.events)
  {
    RebuildClaims(db);
    errors := CheckClaimProjection(db.claims, db.events);
    ClaimErrorsEmpty(db.claims, Claims(db.events));
  }

  // ---------------------------------------------------------------- check_claim_history

  /** The (claim_id, owner_id) pair `check_claim_history` tracks for one intent. */
  function Tracked(es: History): Option<(string, string)> {
    if es == [] then None
    else
      var active, e := Tracked(es[..|es|-1]), es[|es|-1];
      if e.eventType == ESTABLISHED then
        if active.Some? then active
        else if Name(Doc(e), "claim_id").Some? && Name(Doc(e), "owner_id").Some?
        then Some((Name(Doc(e), "claim_id").value, Name(Doc(e), "owner_id").value))
        else None
      else if active.Some? && Text(Doc(e), "claim_id") == Some(active.value.0)
                           && Text(Doc(e), "owner_id") == Some(active.value.1) then None
      else active
  }

  /** What `check_claim_history` reports for the last event of one intent's events. */
  function HistoryError(es: History): ErrorList
    requires es != []
  {
    var active, e := Tracked(es[..|es|-1]), es[|es|-1];
    if active.None? then []
    else if e.eventType == ESTABLISHED then [AuditError("DUPLICATE_ACTIVE_CLAIM", e.id)]
    else When(Text(Doc(e), "claim_id") != Some(active.value.0) || Text(Doc(e), "owner_id") != Some(active.value.1),
              "RELEASE_OWNER_MISMATCH", e.id)
  }

  function HistoryErrors(es: History): ErrorList {
    if es == [] then [] else HistoryErrors(es[..|es|-1]) + HistoryError(es)
  }

  method CheckIntentClaims(es: History) returns (errors: ErrorList)
    ensures errors == HistoryErrors(es)
  {
    hide Doc, Name, Text;
    errors := [];
    var active: Option<(string, string)> := None;
    for k := 0 to |es|
      invariant errors == HistoryErrors(es[..k]) && active == Tracked(es[..k])
    {
      Upto(es, k);
      var e := es[k];
      var claimId, ownerId := Name(Doc(e), "claim_id"), Name(Doc(e), "owner_id");
      if e.eventType == ESTABLISHED {
        if active.Some? {
          errors := errors + [AuditError("DUPLICATE_ACTIVE_CLAIM", e.id)];
        } else if claimId.Some? && ownerId.Some? {
          active := Some((claimId.value, ownerId.value));
        }
      } else if active.Some? {
        if Text(Doc(e), "claim_id") == Some(active.value.0) && Text(Doc(e), "owner_id") == Some(active.value.1) {
          active := None;
        } else {
          errors := errors + [AuditError("RELEASE_OWNER_MISMATCH", e.id)];
        }
      }
    }
    assert es[..|es|] == es;
  }

  ghost predicate CleanFor(es: History, i: string) {
    HistoryErrors(EventsOf(es, i)) == []
  }

  /** No intent has a claim while another is active, and every release matches. */
  ghost predicate CleanClaims(es: History) {
    forall i :: i != "" ==> CleanFor(es, i)
  }

  function ErrorsOf(es: History): string -> ErrorList {
    (i: string) => HistoryErrors(EventsOf(es, i))
  }

  /** `check_claim_history`: every intent's group in turn, in the order of their first claim events. */
  method CheckClaimHistory(es: History) returns (errors: ErrorList)
    ensures errors == Collect(FirstNamed(es), ErrorsOf(es))
  {
    hide HistoryErrors, EventsOf, FirstNamed;
    var groups, order := GroupByIntent(es);
    errors := [];
    for k := 0 to |order|
      invariant errors == Collect(order[..k], ErrorsOf(es))
    {
      CollectUpto(order, ErrorsOf(es), k);
      assert order[k] in order;
      var more := CheckIntentClaims(groups[order[k]]);
      errors := errors + more;
    }
    assert order[..|order|] == order;
  }

  lemma {:induction false} NamedEvents(es: History, i: string)
    ensures i in FirstNamed(es) ==> i != ""
    ensures i != "" && i !in FirstNamed(es) ==> EventsOf(es, i) == []
  {
    if es != [] { NamedEvents(es[..|es|-1], i); }
  }

  /** No error if and only if no intent has a claim while another is active and every release matches. */
  lemma HistoryErrorsEmpty(es: History)
    ensures Collect(FirstNamed(es), ErrorsOf(es)) == [] <==> CleanClaims(es)
  {
    hide HistoryErrors, EventsOf, FirstNamed, Collect;
    CollectEmpty(FirstNamed(es), ErrorsOf(es));
    NothingReported();
    forall i ensures (i in FirstNamed(es) ==> i != "") && (i != "" && i !in FirstNamed(es) ==> CleanFor(es, i)) {
      NamedEvents(es, i);
    }
    forall i ensures ErrorsOf(es)(i) == [] <==> CleanFor(es, i) { }
  }

  lemma NothingReported()
    ensures HistoryErrors([]) == []
  {
  }

  /** One intent's claim and release events, nothing else. */
  predicate OneIntent(es: History) {
    forall k :: 0 <= k < |es| ==> IsClaimEvent(es[k].eventType) && IntentId(es[k]).Some?
  }

  /** On any history the claim the check tracks is the claim replay finds, step by step. */
  lemma {:induction false} TrackedIsReplay(es: History)
    requires OneIntent(es)
    ensures Tracked(es) ==
      match Replay(es) case None => None case Some(c) => Some((c.row.claimId, c.row.ownerId))
  {
    if es != [] {
      assert IsClaimEvent(es[|es|-1].eventType) && IntentId(es[|es|-1]).Some?;
      TrackedIsReplay(es[..|es|-1]);
    }
  }

  lemma {:induction false} EventsOfOneIntent(es: History, i: string)
    requires i != ""
    ensures OneIntent(EventsOf(es, i))
  {
    if es != [] { EventsOfOneIntent(es[..|es|-1], i); }
  }

  /** A claim event that the check accepts after `before`. */
  predicate LegalClaimEvent(before: History, e: Event) {
    IsClaimEvent(e.eventType) && IntentId(e).Some? && IntentId(e).value in Claims(before)
    ==> Releases(e, Claims(before)[IntentId(e).value])
  }

  /** Appending an acceptable event keeps the claim history clean. */
  lemma LegalKeepsClean(es: History, e: Event, i: string)
    requires i != "" && CleanFor(es, i) && LegalClaimEvent(es, e)
    ensures CleanFor(es + [e], i)
  {
    Snoc(es, e);
    var mine := EventsOf(es, i);
    if IsClaimEvent(e.eventType) && Text(Doc(e), "intent_id") == Some(i) {
      Snoc(mine, e);
      EventsOfOneIntent(es, i);
      TrackedIsReplay(mine);
      TableIsReplay(es, i);
    } else {
      assert EventsOf(es + [e], i) == mine;
    }
  }

  /** Nothing is ever active for the empty name. */
  lemma {:induction false} NothingUnnamed(es: History)
    ensures Replay(EventsOf(es, "")) == None
  {
    if es != [] {
      var front, e := es[..|es|-1], es[|es|-1];
      NothingUnnamed(front);
      if IsClaimEvent(e.eventType) && Text(Doc(e), "intent_id") == Some("") {
        assert IntentId(e).None? && !Establishes(e);
        hide Doc, Establishes, Releases, IntentId, IsClaimEvent;
        assert EventsOf(es, "") == EventsOf(front, "") + [e];
        Snoc(EventsOf(front, ""), e);
      } else {
        assert EventsOf(es, "") == EventsOf(front, "");
      }
    }
  }

  // ---------------------------------------------------------------- claims by position

  /** The event establishes a claim on intent `i`. */
  predicate EstablishesFor(e: Event, i: string) {
    && e.eventType == "intent_claim_established" && Name(Doc(e), "intent_id") == Some(i)
    && Name(Doc(e), "claim_id").Some? && Name(Doc(e), "owner_id").Some?
  }

  /** The event releases the claim on intent `i` that event `c` establishes: claim and owner both match. */
  predicate ReleasesFor(e: Event, i: string, c: Event) {
    && e.eventType == "intent_released" && Name(Doc(e), "intent_id") == Some(i)
    && Text(Doc(e), "claim_id") == Name(Doc(c), "claim_id") && Text(Doc(e), "owner_id") == Name(Doc(c), "owner_id")
  }

  /** The claim on intent `i` that event `m` establishes stands before event `n`: none stood when it was established,
      and no event since has released it. */
  ghost predicate Stands(es: History, i: string, m: nat, n: nat)
    decreases m, 1
  {
    && m < n <= |es| && EstablishesFor(es[m], i) && Free(es, i, m)
    && forall k: nat :: m < k < n ==> !ReleasesFor(es[k], i, es[m])
  }

  /** No claim on intent `i` stands before event `n`. */
  ghost predicate Free(es: History, i: string, n: nat)
    decreases n, 0
  {
    forall m: nat :: m < n ==> !Stands(es, i, m, n)
  }

  lemma {:induction false} StandsSame(es: History, i: string, m: nat, n: nat)
    requires es != [] && n < |es|
    ensures Stands(es, i, m, n) <==> Stands(es[..|es|-1], i, m, n)
    decreases m
  {
    hide EstablishesFor, ReleasesFor, Free;
    if m < n { FreeSame(es, i, m); }
  }

  lemma {:induction false} FreeSame(es: History, i: string, n: nat)
    requires es != [] && n < |es|
    ensures Free(es, i, n) <==> Free(es[..|es|-1], i, n)
    decreases n, 0
  {
    var front := es[..|es|-1];
    forall m: nat | m < n ensures Stands(es, i, m, n) <==> Stands(front, i, m, n) { StandsSame(es, i, m, n); }
    hide Stands, Free;
    if Free(es, i, n) {
      forall m: nat | m < n ensures !Stands(front, i, m, n) { FreeNone(es, i, m, n); }
      NoneFree(front, i, n);
    }
    if Free(front, i, n) {
      forall m: nat | m < n ensures !Stands(es, i, m, n) { FreeNone(front, i, m, n); }
      NoneFree(es, i, n);
    }
  }

  lemma FreeNone(es: History, i: string, m: nat, n: nat)
    requires Free(es, i, n) && m < n
    ensures !Stands(es, i, m, n)
  {
  }

  lemma NoneFree(es: History, i: string, n: nat)
    requires forall m: nat :: m < n ==> !Stands(es, i, m, n)
    ensures Free(es, i, n)
  {
  }

  lemma StandsStep(es: History, i: string, m: nat)
    requires es != []
    ensures var k := |es| - 1;
      && (m < k ==> (Stands(es, i, m, |es|) <==> Stands(es, i, m, k) && !ReleasesFor(es[k], i, es[m])))
      && (m == k ==> (Stands(es, i, m, |es|) <==> EstablishesFor(es[k], i) && Free(es, i, k)))
  {
    hide EstablishesFor, ReleasesFor, Free;
  }

  lemma StandsInside(es: History, i: string, m: nat, n: nat)
    requires Stands(es, i, m, n)
    ensures m < n <= |es| && EstablishesFor(es[m], i)
  {
    hide EstablishesFor, ReleasesFor;
  }

  /** The row of the claim that an event establishes. */
  function RowFrom(e: Event): ClaimRow
    requires Name(Doc(e), "claim_id").Some? && Name(Doc(e), "owner_id").Some?
  {
    ClaimRow(Name(Doc(e), "claim_id").value, Name(Doc(e), "owner_id").value, e.createdAt, e.id)
  }

  /** The tables of the rebuild and the auditor hold exactly the claims that stand. */
  lemma {:induction false} ClaimStands(es: History, i: string)
    ensures i in Claims(es) <==> exists m: nat :: Stands(es, i, m, |es|)
    ensures forall m: nat :: Stands(es, i, m, |es|) ==>
      EstablishesFor(es[m], i) && i in Claims(es) && Claims(es)[i] == RowFrom(es[m])
  {
    if es == [] {
      forall m: nat ensures !Stands(es, i, m, 0) { }
    } else {
      var front, k := es[..|es|-1], |es| - 1;
      ClaimStands(front, i);
      forall m: nat ensures Stands(es, i, m, k) <==> Stands(front, i, m, k) { StandsSame(es, i, m, k); }
      forall m: nat { StandsStep(es, i, m); }
      forall m: nat | Stands(es, i, m, |es|) ensures m <= k { StandsInside(es, i, m, |es|); }
      forall m: nat | Stands(front, i, m, k) ensures m < k && front[m] == es[m] { StandsInside(front, i, m, k); }
      ClaimsMove(front, es[k], i);
      Unsnoc(es);
      hide Stands, Free, Claims, ClaimStep;
      if m: nat :| Stands(front, i, m, k) {
        assert Stands(es, i, m, |es|) <==> !ReleasesFor(es[k], i, es[m]);
        if Free(es, i, k) { FreeNone(es, i, m, k); }
      } else {
        NoneFree(es, i, k);
        assert Stands(es, i, k, |es|) <==> EstablishesFor(es[k], i);
      }
    }
  }

  lemma ClaimsMove(front: History, e: Event, i: string)
    ensures i in Claims(front) ==>
      (i in Claims(front + [e]) <==> !(e.eventType == RELEASED && IntentId(e) == Some(i) && Releases(e, Claims(front)[i])))
      && (i in Claims(front + [e]) ==> Claims(front + [e])[i] == Claims(front)[i])
    ensures i !in Claims(front) ==> (i in Claims(front + [e]) <==> EstablishesFor(e, i))
    ensures i !in Claims(front) && EstablishesFor(e, i) ==> Claims(front + [e])[i] == RowFrom(e)
  {
    hide Doc;
    Snoc(front, e);
  }

  /** The claim that stands before event `n` of the same intent is claimed again, or released by a release that does
      not match. */
  ghost predicate Objectionable(es: History, i: string, m: nat, n: nat) {
    && n < |es| && Stands(es, i, m, n) && Name(Doc(es[n]), "intent_id") == Some(i)
    && (es[n].eventType == "intent_claim_established" || (es[n].eventType == "intent_released" && !ReleasesFor(es[n], i, es[m])))
  }

  /** The error for a claim event that is not acceptable. */
  function ObjectionTo(e: Event): AuditError {
    AuditError(if e.eventType == "intent_claim_established" then "DUPLICATE_ACTIVE_CLAIM" else "RELEASE_OWNER_MISMATCH", e.id)
  }

  lemma {:induction false} StandsUpto(es: History, i: string, m: nat, n: nat)
    requires n <= |es|
    ensures Stands(es, i, m, n) <==> Stands(es[..n], i, m, n)
  {
    hide Stands;
    if n < |es| {
      StandsUpto(es[..|es|-1], i, m, n);
      StandsSame(es, i, m, n);
      assert es[..|es|-1][..n] == es[..n];
    } else {
      assert es[..n] == es;
    }
  }

  lemma ObjectionIs(es: History, n: nat)
    requires n < |es|
    ensures !LegalClaimEvent(es[..n], es[n]) <==> exists i, m: nat :: Objectionable(es, i, m, n)
  {
    hide Doc, Stands, Claims;
    if IntentId(es[n]).Some? {
      var i := IntentId(es[n]).value;
      ClaimStands(es[..n], i);
      forall m: nat ensures Stands(es, i, m, n) <==> Stands(es[..n], i, m, n) { StandsUpto(es, i, m, n); }
      forall m: nat | Stands(es, i, m, n) ensures m < n && es[..n][m] == es[m] { StandsInside(es, i, m, n); }
      if m: nat :| Stands(es[..n], i, m, n) {
        assert Objectionable(es, i, m, n) <==> !LegalClaimEvent(es[..n], es[n]);
      }
    }
  }

  lemma GroupError(mine: History, front: History, e: Event, i: string)
    requires i != "" && mine == EventsOf(front, i) && IsClaimEvent(e.eventType) && Text(Doc(e), "intent_id") == Some(i)
    ensures HistoryErrors(mine + [e]) == HistoryErrors(mine) + if LegalClaimEvent(front, e) then [] else [ObjectionTo(e)]
  {
    Snoc(mine, e);
    EventsOfOneIntent(front, i);
    TrackedIsReplay(mine);
    TableIsReplay(front, i);
  }

  /** Event `n` is one of intent `i` that the check objects to with `x`. */
  predicate ObjectsAt(es: History, i: string, x: AuditError, n: nat) {
    n < |es| && !LegalClaimEvent(es[..n], es[n]) && IntentId(es[n]) == Some(i) && x == ObjectionTo(es[n])
  }

  lemma ObjectsFront(es: History, i: string, x: AuditError, n: nat)
    requires es != []
    ensures ObjectsAt(es[..|es|-1], i, x, n) <==> ObjectsAt(es, i, x, n) && n < |es| - 1
  {
    hide LegalClaimEvent, Doc, ObjectionTo;
    if n < |es| - 1 { assert es[..|es|-1][..n] == es[..n]; }
  }

  lemma ObjectsLast(es: History, i: string, x: AuditError)
    requires es != []
    ensures var front, e := es[..|es|-1], es[|es|-1];
      ObjectsAt(es, i, x, |es| - 1) <==>
        && IsClaimEvent(e.eventType) && Text(Doc(e), "intent_id") == Some(i) && i != ""
        && !LegalClaimEvent(front, e) && x == ObjectionTo(e)
  {
    if !LegalClaimEvent(es[..|es|-1], es[|es|-1]) { ObjectedIsClaim(es[..|es|-1], es[|es|-1]); }
    hide LegalClaimEvent, ObjectionTo;
  }

  /** What the check of one intent reports. */
  lemma {:induction false} GroupFinds(es: History, i: string, x: AuditError)
    requires i != ""
    ensures x in HistoryErrors(EventsOf(es, i)) <==> exists n: nat :: ObjectsAt(es, i, x, n)
  {
    hide LegalClaimEvent, Doc, ObjectionTo, HistoryErrors, IsClaimEvent;
    if es == [] {
      NothingReported();
    } else {
      var front, k := es[..|es|-1], |es| - 1;
      GroupFinds(front, i, x);
      ObjectsLast(es, i, x);
      forall n: nat { ObjectsFront(es, i, x, n); }
      forall n: nat | ObjectsAt(es, i, x, n) ensures n <= k { }
      hide ObjectsAt;
      if n: nat :| ObjectsAt(front, i, x, n) { assert ObjectsAt(es, i, x, n); }
      if n: nat :| ObjectsAt(es, i, x, n) { assert n == k || ObjectsAt(front, i, x, n); }
      if IsClaimEvent(es[k].eventType) && Text(Doc(es[k]), "intent_id") == Some(i) {
        GroupError(EventsOf(front, i), front, es[k], i);
        assert EventsOf(es, i) == EventsOf(front, i) + [es[k]];
      } else {
        assert EventsOf(es, i) == EventsOf(front, i);
      }
    }
  }

  lemma ObjectedIsClaim(front: History, e: Event)
    requires !LegalClaimEvent(front, e)
    ensures IsClaimEvent(e.eventType) && IntentId(e).Some?
  {
    hide Doc, Claims;
  }

  /** The check reports exactly the events that claim again, or release without matching, a claim that stands. */
  lemma HistoryFinds(es: History, x: AuditError)
    ensures x in Collect(FirstNamed(es), ErrorsOf(es)) <==>
      exists i, m: nat, n: nat :: Objectionable(es, i, m, n) && x == ObjectionTo(es[n])
  {
    hide HistoryErrors, EventsOf, FirstNamed, Collect, LegalClaimEvent, ObjectionTo, Objectionable, Doc;
    CollectFinds(FirstNamed(es), ErrorsOf(es), x);
    NothingReported();
    forall i, m: nat, n: nat | Objectionable(es, i, m, n) ensures n < |es| { ObjectedInside(es, i, m, n); }
    if x in Collect(FirstNamed(es), ErrorsOf(es)) {
      var i :| i in FirstNamed(es) && x in ErrorsOf(es)(i);
      NamedEvents(es, i);
      GroupFinds(es, i, x);
      var n: nat :| ObjectsAt(es, i, x, n);
      ObjectionIs(es, n);
    }
    if i, m: nat, n: nat :| Objectionable(es, i, m, n) && x == ObjectionTo(es[n]) {
      ObjectionIs(es, n);
      ObjectedIsClaim(es[..n], es[n]);
      var q := IntentId(es[n]).value;
      assert ObjectsAt(es, q, x, n);
      GroupFinds(es, q, x);
      NamedEvents(es, q);
      assert x in ErrorsOf(es)(q);
    }
  }

  /** So it reports nothing if and only if no claim is established while another on its intent stands and every release
      matches the claim that stands, if one does. */
  lemma CleanIsExclusive(es: History)
    ensures CleanClaims(es) <==> forall i, m: nat, n: nat :: !Objectionable(es, i, m, n)
  {
    hide Collect, FirstNamed, ErrorsOf, Objectionable, CleanClaims, ObjectionTo;
    HistoryErrorsEmpty(es);
    forall i, m: nat, n: nat | Objectionable(es, i, m, n) ensures n < |es| { ObjectedInside(es, i, m, n); }
    if Collect(FirstNamed(es), ErrorsOf(es)) != [] { HistoryFinds(es, Collect(FirstNamed(es), ErrorsOf(es))[0]); }
    if i, m: nat, n: nat :| Objectionable(es, i, m, n) { HistoryFinds(es, ObjectionTo(es[n])); }
  }

  lemma ObjectedInside(es: History, i: string, m: nat, n: nat)
    requires Objectionable(es, i, m, n)
    ensures n < |es|
  {
  }
}
