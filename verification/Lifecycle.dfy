/** Run lifecycle: transitions, the query for a run's state, `operation_state_projection`, its
    rebuild, and the auditor's recomputation and checks of runs. */
module Lifecycle {
  import opened Strings
  import opened Like
  import opened Json
  import opened Ledger
  import opened State
  import opened Errors
  import Lookup

  predicate IsRunEvent(t: string) {
    t == "run_created" || t == "state_running" || t == "artifact_written" || t == "state_completed"
  }

  /** ALLOWED_TRANSITIONS. */
  predicate Follows(previous: string, next: string) {
    || (previous == "run_created" && next == "state_running")
    || (previous == "state_running" && next == "artifact_written")
    || (previous == "artifact_written" && next == "state_completed")
  }

  function RunId(e: Event): Option<string> {
    Name(Doc(e), "run_id")
  }

  // ---------------------------------------------------------------- tables from history

  function RowOf(e: Event): RunRow {
    RunRow(e.eventType, e.id, e.createdAt)
  }

  function RunStep(t: RunTable, e: Event): RunTable {
    var r := Text(Doc(e), "run_id");
    if IsRunEvent(e.eventType) && r.Some? then t[r.value := RowOf(e)] else t
  }

  /** What `rebuild_projection` computes from a history. */
  function Runs(es: History): RunTable {
    if es == [] then map[] else RunStep(Runs(es[..|es|-1]), es[|es|-1])
  }

  function ExpectedRunStep(t: RunTable, e: Event): RunTable {
    if IsRunEvent(e.eventType) && RunId(e).Some? then t[RunId(e).value := RowOf(e)] else t
  }

  /** What the auditor's `compute_expected_projection` computes from a history. */
  function ExpectedRuns(es: History): RunTable {
    if es == [] then map[] else ExpectedRunStep(ExpectedRuns(es[..|es|-1]), es[|es|-1])
  }

  /** The event moves run `r` to `row`. */
  predicate Moves(e: Event, r: string, row: RunRow) {
    IsRunEvent(e.eventType) && Text(Doc(e), "run_id") == Some(r) && RowOf(e) == row
  }

  /** Upserting its row is the rebuild's next step. */
  lemma UpsertIsStep(es: History, e: Event, r: string, row: RunRow)
    requires Moves(e, r, row)
    ensures Runs(es + [e]) == Runs(es)[r := row]
  {
    Snoc(es, e);
  }

  /** The two differ only by a run with the empty name, which the auditor does not expect. */
  lemma {:induction false} RebuildMatchesExpected(es: History)
    ensures ExpectedRuns(es) == Runs(es) - {""}
  {
    if es != [] { RebuildMatchesExpected(es[..|es|-1]); }
  }

  /** Event `n` is the last that moves run `r`. */
  ghost predicate LastMove(es: History, r: string, n: nat) {
    && n < |es| && IsRunEvent(es[n].eventType) && Text(Doc(es[n]), "run_id") == Some(r)
    && forall k :: n < k < |es| ==> !(IsRunEvent(es[k].eventType) && Text(Doc(es[k]), "run_id") == Some(r))
  }

  /** A run's rebuilt row is that of the last event that moves it. */
  lemma {:induction false} RowIsLast(es: History, r: string)
    ensures r in Runs(es) <==> exists n: nat :: LastMove(es, r, n)
    ensures forall n: nat :: LastMove(es, r, n) ==>
      r in Runs(es) && Runs(es)[r] == RunRow(es[n].eventType, es[n].id, es[n].createdAt)
  {
    if es != [] {
      var front, m := es[..|es|-1], |es| - 1;
      RowIsLast(front, r);
      if IsRunEvent(es[m].eventType) && Text(Doc(es[m]), "run_id") == Some(r) {
        assert LastMove(es, r, m);
        assert forall n: nat :: LastMove(es, r, n) ==> n == m;
      } else {
        forall n: nat ensures LastMove(es, r, n) <==> LastMove(front, r, n) {
          if n < m { assert front[n] == es[n]; }
        }
      }
    }
  }

  /** `json.loads(payload).get(...)` raises on a lifecycle row whose payload is not a dict. */
  predicate Readable(es: History) {
    forall i :: 0 <= i < |es| && IsRunEvent(es[i].eventType) ==> IsDoc(es[i])
  }

  /** `rebuild_projection` for runs: all or nothing. */
  method RebuildRuns(db: Database) returns (ok: bool)
    modifies db`runs
    ensures ok <==> Readable(db.events)
    ensures db.runs == if ok then Runs(db.events) else old(db.runs)
  {
    var table: RunTable := map[];
    var rows := db.events;
    for i := 0 to |rows|
      invariant table == Runs(rows[..i]) && Readable(rows[..i])
      invariant db.runs == old(db.runs)
    {
      var e := rows[i];
      Upto(rows, i);
      if IsRunEvent(e.eventType) {
        if !IsDoc(e) { return false; }
        var r := Text(Doc(e), "run_id");
        if r.Some? { table := table[r.value := RowOf(e)]; }
      }
    }
    assert rows[..|rows|] == rows;
    db.runs := table;
    return true;
  }

  method ComputeExpectedProjection(es: History) returns (expected: RunTable)
    ensures expected == ExpectedRuns(es)
  {
    expected := map[];
    for i := 0 to |es|
      invariant expected == ExpectedRuns(es[..i])
    {
      Upto(es, i);
      if IsRunEvent(es[i].eventType) && RunId(es[i]).Some? {
        expected := expected[RunId(es[i]).value := RowOf(es[i])];
      }
    }
    assert es[..|es|] == es;
  }

  function RunRowErrors(actual: RunTable, expected: RunTable): string -> ErrorList {
    (r: string) =>
      if r !in expected then []
      else if r !in actual then [AuditError("PROJECTION_MISMATCH", r)]
      else
        When(actual[r].state != expected[r].state, "PROJECTION_MISMATCH", r) +
        When(actual[r].lastEventId != expected[r].lastEventId, "PROJECTION_LAST_EVENT_ID_MISMATCH", r) +
        When(actual[r].updatedAt != expected[r].updatedAt, "PROJECTION_UPDATED_AT_MISMATCH", r)
  }

  /** `check_projections`. */
  method CheckProjections(actual: RunTable, es: History) returns (errors: ErrorList)
    ensures errors == Collect(SortedKeys(ExpectedRuns(es).Keys), RunRowErrors(actual, ExpectedRuns(es)))
  {
    var expected := ComputeExpectedProjection(es);
    errors := Report(SortedKeys(expected.Keys), RunRowErrors(actual, expected));
  }

  /** No error exactly when every expected row is present and equal. */
  lemma RunErrorsEmpty(actual: RunTable, expected: RunTable)
    ensures Collect(SortedKeys(expected.Keys), RunRowErrors(actual, expected)) == []
       <==> forall r :: r in expected ==> r in actual && actual[r] == expected[r]
  {
    var of := RunRowErrors(actual, expected);
    CollectEmpty(SortedKeys(expected.Keys), of);
    forall r | r in expected
      ensures of(r) == [] <==> (r in actual && actual[r] == expected[r])
    {
    }
  }

  /** What the comparison has to say of a run. */
  predicate RowWrong(actual: RunTable, expected: RunTable, r: string, code: string) {
    && r in expected
    && if r !in actual then code == "PROJECTION_MISMATCH"
       else
         || (code == "PROJECTION_MISMATCH" && actual[r].state != expected[r].state)
         || (code == "PROJECTION_LAST_EVENT_ID_MISMATCH" && actual[r].lastEventId != expected[r].lastEventId)
         || (code == "PROJECTION_UPDATED_AT_MISMATCH" && actual[r].updatedAt != expected[r].updatedAt)
  }

  lemma RunRowFinds(actual: RunTable, expected: RunTable, r: string, x: AuditError)
    ensures x in RunRowErrors(actual, expected)(r) <==> x.id == r && RowWrong(actual, expected, r, x.code)
  {
    if r in expected && r in actual {
      WhenFinds(actual[r].state != expected[r].state, "PROJECTION_MISMATCH", r, x);
      WhenFinds(actual[r].lastEventId != expected[r].lastEventId, "PROJECTION_LAST_EVENT_ID_MISMATCH", r, x);
      WhenFinds(actual[r].updatedAt != expected[r].updatedAt, "PROJECTION_UPDATED_AT_MISMATCH", r, x);
      hide When;
    }
  }

  /** It reports exactly that. */
  lemma RunErrorsFind(actual: RunTable, expected: RunTable, x: AuditError)
    ensures x in Collect(SortedKeys(expected.Keys), RunRowErrors(actual, expected)) <==> RowWrong(actual, expected, x.id, x.code)
  {
    forall r { RunRowFinds(actual, expected, r, x); }
    hide RunRowErrors, Collect;
    ReportFinds(SortedKeys(expected.Keys), RunRowErrors(actual, expected), x);
  }

  /** On every history, legal or not, a rebuilt run table passes the auditor's comparison. */
  lemma RebuildPassesAudit(es: History)
    ensures Collect(SortedKeys(ExpectedRuns(es).Keys), RunRowErrors(Runs(es), ExpectedRuns(es))) == []
  {
    RebuildMatchesExpected(es);
    RunErrorsEmpty(Runs(es), ExpectedRuns(es));
  }

  // ---------------------------------------------------------------- history checks

  /** `check_run_id_presence`. */
  function PresenceErrors(es: History): ErrorList {
    if es == [] then []
    else
      var e := es[|es|-1];
      PresenceErrors(es[..|es|-1]) + When(IsRunEvent(e.eventType) && RunId(e).None?, "MISSING_RUN_ID", e.id)
  }

  /** Whether `next` may be the next event of run `r`, given the runs so far. */
  predicate LegalNext(t: RunTable, r: string, next: string) {
    if r in t then Follows(t[r].state, next) else next == "run_created"
  }

  predicate LegalRunEvent(before: History, e: Event) {
    IsRunEvent(e.eventType) && RunId(e).Some? ==> LegalNext(ExpectedRuns(before), RunId(e).value, e.eventType)
  }

  function TransitionErrors(es: History): ErrorList {
    if es == [] then []
    else
      var front, e := es[..|es|-1], es[|es|-1];
      TransitionErrors(front) + When(!LegalRunEvent(front, e), "ILLEGAL_TRANSITION", e.id)
  }

  lemma PresenceStep(before: History, e: Event)
    ensures PresenceErrors(before + [e]) ==
      PresenceErrors(before) + When(IsRunEvent(e.eventType) && RunId(e).None?, "MISSING_RUN_ID", e.id)
  {
    hide RunId, IsRunEvent;
    Snoc(before, e);
  }

  method CheckRunIdPresence(es: History) returns (errors: ErrorList)
    ensures errors == PresenceErrors(es)
  {
    hide RunId, IsRunEvent, PresenceErrors;
    errors := [];
    assert PresenceErrors(es[..0]) == [] by { NothingAbsent(); }
    for i := 0 to |es|
      invariant errors == PresenceErrors(es[..i])
    {
      Upto(es, i);
      PresenceStep(es[..i], es[i]);
      if IsRunEvent(es[i].eventType) && RunId(es[i]).None? {
        errors := errors + [AuditError("MISSING_RUN_ID", es[i].id)];
      }
    }
    assert es[..|es|] == es;
  }

  lemma NothingAbsent()
    ensures PresenceErrors([]) == []
  {
  }

  /** A run event that names no run. */
  predicate Nameless(e: Event) {
    e.eventType in {"run_created", "state_running", "artifact_written", "state_completed"} && Name(Doc(e), "run_id").None?
  }

  /** Exactly those are reported, each by its id. */
  lemma {:induction false} PresenceFinds(es: History, x: AuditError)
    ensures x in PresenceErrors(es) <==>
      exists n: nat :: n < |es| && Nameless(es[n]) && x == AuditError("MISSING_RUN_ID", es[n].id)
  {
    if es != [] {
      var front, m := es[..|es|-1], |es| - 1;
      PresenceFinds(front, x);
      PresenceStep(front, es[m]);
      Unsnoc(es);
      hide PresenceErrors, RunId, Doc;
      if n: nat :| n < |es| && Nameless(es[n]) && x == AuditError("MISSING_RUN_ID", es[n].id) {
        if n < m { assert front[n] == es[n]; }
      }
      if n: nat :| n < |front| && Nameless(front[n]) && x == AuditError("MISSING_RUN_ID", front[n].id) { assert front[n] == es[n]; }
    }
  }

  lemma PresenceCheckExact(es: History)
    ensures PresenceErrors(es) == [] <==> forall n: nat :: n < |es| ==> !Nameless(es[n])
  {
    hide PresenceErrors, Nameless;
    if PresenceErrors(es) != [] { PresenceFinds(es, PresenceErrors(es)[0]); }
    if n: nat :| n < |es| && Nameless(es[n]) { PresenceFinds(es, AuditError("MISSING_RUN_ID", es[n].id)); }
  }

  /** `check_lifecycle_transitions`: replays every run with one dict of last states. */
  method CheckLifecycleTransitions(es: History) returns (errors: ErrorList)
    ensures errors == TransitionErrors(es)
  {
    errors := [];
    var lastState: map<string, string> := map[];
    for i := 0 to |es|
      invariant errors == TransitionErrors(es[..i])
      invariant lastState.Keys == ExpectedRuns(es[..i]).Keys
      invariant forall r :: r in lastState ==> lastState[r] == ExpectedRuns(es[..i])[r].state
    {
      Upto(es, i);
      var e := es[i];
      if IsRunEvent(e.eventType) && RunId(e).Some? {
        var r := RunId(e).value;
        if r !in lastState {
          if e.eventType != "run_created" { errors := errors + [AuditError("ILLEGAL_TRANSITION", e.id)]; }
        } else if !Follows(lastState[r], e.eventType) {
          errors := errors + [AuditError("ILLEGAL_TRANSITION", e.id)];
        }
        lastState := lastState[r := e.eventType];
      }
    }
    assert es[..|es|] == es;
  }

  const PATH := ["run_created", "state_running", "artifact_written", "state_completed"]

  /** The lifecycle event types of run `r`, in ledger order. */
  function RunTypes(es: History, r: string): seq<string> {
    if es == [] then []
    else
      var e := es[|es|-1];
      RunTypes(es[..|es|-1], r) + if IsRunEvent(e.eventType) && RunId(e) == Some(r) then [e.eventType] else []
  }

  lemma {:induction false} StateIsLastType(es: History, r: string)
    ensures r in ExpectedRuns(es) <==> RunTypes(es, r) != []
    ensures r in ExpectedRuns(es) ==> ExpectedRuns(es)[r].state == RunTypes(es, r)[|RunTypes(es, r)|-1]
  {
    if es != [] { StateIsLastType(es[..|es|-1], r); }
  }

  lemma PathStep(ks: seq<string>, next: string)
    requires ks <= PATH
    ensures ks + [next] <= PATH <==>
      if ks == [] then next == "run_created" else Follows(ks[|ks|-1], next)
  {
    assert |ks| <= 4;
    if |ks| < 4 {
      assert ks + [next] <= PATH <==> next == PATH[|ks|];
      assert |ks| > 0 ==> ks[|ks|-1] == PATH[|ks|-1];
    } else {
      assert ks[3] == PATH[3];
    }
  }

  ghost predicate OnPath(es: History) {
    forall r :: RunTypes(es, r) <= PATH
  }

  lemma OnPathStep(es: History)
    requires es != [] && OnPath(es[..|es|-1])
    ensures OnPath(es) <==> LegalRunEvent(es[..|es|-1], es[|es|-1])
  {
    var front, e := es[..|es|-1], es[|es|-1];
    if IsRunEvent(e.eventType) && RunId(e).Some? {
      var r := RunId(e).value;
      StateIsLastType(front, r);
      PathStep(RunTypes(front, r), e.eventType);
      assert RunTypes(es, r) == RunTypes(front, r) + [e.eventType];
      forall q | q != r ensures RunTypes(es, q) == RunTypes(front, q) { }
    } else {
      forall q ensures RunTypes(es, q) == RunTypes(front, q) { }
    }
  }

  lemma OnPathFront(es: History)
    requires es != [] && OnPath(es)
    ensures OnPath(es[..|es|-1])
  {
    var front := es[..|es|-1];
    forall r ensures RunTypes(front, r) <= PATH {
      assert RunTypes(front, r) <= RunTypes(es, r);
    }
  }

  /** The transition check is exact: no error if and only if the events of every run are a prefix
      of created, running, artifact, completed. */
  lemma {:induction false} TransitionCheckExact(es: History)
    ensures TransitionErrors(es) == [] <==> OnPath(es)
  {
    hide LegalRunEvent, OnPath;
    if es == [] {
      assert OnPath(es) by { EmptyOnPath(); }
    } else {
      TransitionCheckExact(es[..|es|-1]);
      if OnPath(es[..|es|-1]) { OnPathStep(es); }
      if OnPath(es) { OnPathFront(es); }
    }
  }

  lemma EmptyOnPath()
    ensures OnPath([])
  {
  }

  /** Event `n` is one the transition table does not allow where it stands: the last event before it of the run it
      names does not lead to it, or it is the first and creates no run. */
  ghost predicate OutOfOrder(es: History, n: nat) {
    && n < |es| && IsRunEvent(es[n].eventType) && RunId(es[n]).Some?
    && if exists m: nat :: LastMove(es[..n], RunId(es[n]).value, m)
       then exists m: nat :: LastMove(es[..n], RunId(es[n]).value, m) && !Follows(es[m].eventType, es[n].eventType)
       else es[n].eventType != "run_created"
  }

  lemma OrderIs(es: History, n: nat)
    requires n < |es|
    ensures OutOfOrder(es, n) <==> !LegalRunEvent(es[..n], es[n])
  {
    if IsRunEvent(es[n].eventType) && RunId(es[n]).Some? {
      var r := RunId(es[n]).value;
      RowIsLast(es[..n], r);
      RebuildMatchesExpected(es[..n]);
      hide Follows, IsRunEvent, LastMove;
      if m: nat :| LastMove(es[..n], r, m) { MoveInside(es[..n], r, m); }
    }
  }

  lemma MoveInside(es: History, r: string, m: nat)
    requires LastMove(es, r, m)
    ensures m < |es| && forall k: nat :: LastMove(es, r, k) ==> k == m
  {
  }

  /** The check reports exactly those events, each by its id. */
  lemma {:induction false} TransitionFinds(es: History, x: AuditError)
    ensures x in TransitionErrors(es) <==>
      exists n: nat :: OutOfOrder(es, n) && x == AuditError("ILLEGAL_TRANSITION", es[n].id)
  {
    hide OutOfOrder, LegalRunEvent;
    forall n: nat | OutOfOrder(es, n) ensures n < |es| { OrderInside(es, n); }
    if es != [] {
      var front, m := es[..|es|-1], |es| - 1;
      TransitionFinds(front, x);
      OrderIs(es, m);
      forall n: nat | n < m ensures OutOfOrder(es, n) <==> OutOfOrder(front, n) {
        assert front[..n] == es[..n] && front[n] == es[n];
        OrderIs(es, n);
        OrderIs(front, n);
      }
      forall n: nat | OutOfOrder(front, n) ensures n < m { OrderInside(front, n); }
    }
  }

  lemma OrderInside(es: History, n: nat)
    requires OutOfOrder(es, n)
    ensures n < |es|
  {
  }

  // ---------------------------------------------------------------- the query

  /** `get_run_state`: the type of the newest event that refers to the run. */
  function StateQuery(es: History, r: string): Option<string> {
    if es == [] then None
    else if Refers(es[|es|-1], "run_id", r) then Some(es[|es|-1].eventType)
    else StateQuery(es[..|es|-1], r)
  }

  method GetRunState(es: History, r: string) returns (state: Option<string>)
    ensures state == if r == "" then None else StateQuery(es, r)
  {
    if r == "" { return None; }
    var i := |es|;
    assert es[..i] == es;
    while i > 0
      invariant i <= |es| && StateQuery(es, r) == StateQuery(es[..i], r)
    {
      i := i - 1;
      Upto(es, i);
      if Refers(es[i], "run_id", r) { return Some(es[i].eventType); }
    }
    return None;
  }

  /** A lifecycle event mentions its own run and no other; no other event mentions a run. */
  ghost predicate RunShaped(e: Event) {
    if IsRunEvent(e.eventType)
    then IsDoc(e) && RunId(e).Some? && forall r :: Mentioned(e, "run_id", r) <==> r == RunId(e).value
    else forall r :: !Mentioned(e, "run_id", r)
  }

  ghost predicate AllRunShaped(es: History) {
    forall i :: 0 <= i < |es| ==> RunShaped(es[i])
  }

  /** Where the lookup is exact, the newest-first query and the forward fold agree on well-shaped histories. */
  lemma {:induction false} QueryIsFold(es: History, r: string)
    requires AllRunShaped(es) && Exact(es, "run_id", r)
    ensures StateQuery(es, r) == if r in ExpectedRuns(es) then Some(ExpectedRuns(es)[r].state) else None
  {
    hide Refers, Mentioned;
    if es != [] {
      assert RunShaped(es[|es|-1]);
      ExactFront(es, "run_id", r);
      QueryIsFold(es[..|es|-1], r);
    }
  }

  /** The run's state as the forward fold has it. */
  function StateOf(es: History, r: string): Option<string> {
    if r in ExpectedRuns(es) then Some(ExpectedRuns(es)[r].state) else None
  }

  /** When the next event leaves the query right: if and only if its document holds the run's id, up to case,
      under a key taken for `run_id` exactly when the event is the run's own, or the run already stood there. */
  lemma QueryStaysRight(es: History, e: Event, r: string)
    requires e.payload.Parsed? && e.payload == Written(e.payload.value) && Searchable(r)
    requires StateQuery(es, r) == StateOf(es, r)
    ensures StateQuery(es + [e], r) == StateOf(es + [e], r) <==>
      (Answers(e.payload.value, "run_id", r) <==> IsRunEvent(e.eventType) && RunId(e) == Some(r)) || StateOf(es, r) == Some(e.eventType)
  {
    hide Matches, Query, Written, Answers, IsRunEvent, RunId, Searchable;
    Lookup.LookupWritten(e, "run_id", r);
    hide Refers;
    Snoc(es, e);
  }
}
