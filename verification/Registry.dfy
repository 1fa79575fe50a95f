/** The worker registry: `worker_projection`, its rebuild, and the auditor's checks of it. */
module Registry {
  import opened Strings
  import opened Json
  import opened Ledger
  import opened State
  import opened Errors

  /** The name a `worker_registered` event registers. */
  function Registered(e: Event): Option<string> {
    if e.eventType == "worker_registered" then Name(Doc(e), "worker_name") else None
  }

  function WorkerStep(t: WorkerTable, e: Event): WorkerTable {
    if Registered(e).Some? && Registered(e).value !in t
    then t[Registered(e).value := WorkerRow(e.createdAt, e.id)] else t
  }

  /** The first registration of every name. */
  function Workers(es: History): WorkerTable {
    if es == [] then map[] else WorkerStep(Workers(es[..|es|-1]), es[|es|-1])
  }

  /** The event registers the name. */
  predicate Enters(e: Event, name: string, row: WorkerRow) {
    Registered(e) == Some(name) && WorkerRow(e.createdAt, e.id) == row
  }

  /** Inserting a row unless the name has one is the rebuild's next step. */
  lemma InsertIsStep(es: History, e: Event, name: string, row: WorkerRow)
    requires Enters(e, name, row)
    ensures Workers(es + [e]) == if name in Workers(es) then Workers(es) else Workers(es)[name := row]
  {
    Snoc(es, e);
  }

  /** `rebuild_worker_projection`. */
  method RebuildWorkers(db: Database)
    modifies db`workers
    ensures db.workers == Workers(db.events)
  {
    var seen: set<string> := {};
    db.workers := map[];
    for k := 0 to |db.events|
      invariant db.workers == Workers(db.events[..k]) && seen == db.workers.Keys
    {
      var e := db.events[k];
      Upto(db.events, k);
      if Registered(e).Some? {
        var name := Registered(e).value;
        if name !in seen {
          db.workers := db.workers[name := WorkerRow(e.createdAt, e.id)];
          seen := seen + {name};
        }
      }
    }
    assert db.events[..|db.events|] == db.events;
  }

  /** `compute_expected_worker_projection`. */
  method ComputeExpectedWorkers(es: History) returns (expected: WorkerTable)
    ensures expected == Workers(es)
  {
    expected := map[];
    for k := 0 to |es|
      invariant expected == Workers(es[..k])
    {
      Upto(es, k);
      if Registered(es[k]).Some? && Registered(es[k]).value !in expected {
        expected := expected[Registered(es[k]).value := WorkerRow(es[k].createdAt, es[k].id)];
      }
    }
    assert es[..|es|] == es;
  }

  predicate Repeats(before: History, e: Event) {
    Registered(e).Some? && Registered(e).value in Workers(before)
  }

  function DuplicateErrors(es: History): ErrorList {
    if es == [] then []
    else
      var front, e := es[..|es|-1], es[|es|-1];
      DuplicateErrors(front) +
      if Repeats(front, e) then [AuditError("DUPLICATE_WORKER_REGISTRATION", Registered(e).value)] else []
  }

  lemma NameSeen(before: History, e: Event)
    ensures Workers(before + [e]).Keys == Workers(before).Keys + if Registered(e).Some? then {Registered(e).value} else {}
    ensures DuplicateErrors(before + [e]) == DuplicateErrors(before) +
      if Repeats(before, e) then [AuditError("DUPLICATE_WORKER_REGISTRATION", Registered(e).value)] else []
  {
    hide Registered;
    Snoc(before, e);
  }

  /** `check_duplicate_worker_registrations`. */
  method CheckDuplicateWorkerRegistrations(es: History) returns (errors: ErrorList)
    ensures errors == DuplicateErrors(es)
  {
    hide Registered, Workers, DuplicateErrors;
    errors := [];
    var seen: set<string> := {};
    NothingSeen();
    for k := 0 to |es|
      invariant errors == DuplicateErrors(es[..k]) && seen == Workers(es[..k]).Keys
    {
      Upto(es, k);
      NameSeen(es[..k], es[k]);
      var name := Registered(es[k]);
      if name.Some? {
        if name.value in seen { errors := errors + [AuditError("DUPLICATE_WORKER_REGISTRATION", name.value)]; }
        seen := seen + {name.value};
      }
    }
    assert es[..|es|] == es;
  }

  lemma NothingSeen()
    ensures Workers([]) == map[] && DuplicateErrors([]) == []
  {
  }

  /** How often a name has been registered. */
  function Times(es: History, name: string): nat {
    if es == [] then 0
    else Times(es[..|es|-1], name) + if Registered(es[|es|-1]) == Some(name) then 1 else 0
  }

  lemma {:induction false} RegisteredSometime(es: History, name: string)
    ensures name in Workers(es) <==> Times(es, name) > 0
  {
    if es != [] { RegisteredSometime(es[..|es|-1], name); }
  }

  /** The row is that of the first event that registers the name. */
  ghost predicate FirstRegistration(es: History, name: string, row: WorkerRow) {
    exists k :: 0 <= k < |es| && Registered(es[k]) == Some(name) && Times(es[..k], name) == 0
             && row == WorkerRow(es[k].createdAt, es[k].id)
  }

  lemma {:induction false} RowIsFirst(es: History, name: string)
    requires name in Workers(es)
    ensures FirstRegistration(es, name, Workers(es)[name])
  {
    hide Registered;
    var front := es[..|es|-1];
    if name in Workers(front) {
      RowIsFirst(front, name);
      var k :| 0 <= k < |front| && Registered(front[k]) == Some(name) && Times(front[..k], name) == 0
            && Workers(front)[name] == WorkerRow(front[k].createdAt, front[k].id);
      assert front[..k] == es[..k] && front[k] == es[k];
    } else {
      RegisteredSometime(front, name);
      assert front == es[..|front|] && Registered(es[|front|]) == Some(name);
    }
  }

  ghost predicate RegisteredOnce(es: History) {
    forall name :: Times(es, name) <= 1
  }

  lemma NoneRegistered()
    ensures RegisteredOnce([])
  {
  }

  lemma OnceStep(es: History)
    requires es != []
    ensures RegisteredOnce(es) <==>
      && RegisteredOnce(es[..|es|-1])
      && (Registered(es[|es|-1]).Some? ==> Times(es[..|es|-1], Registered(es[|es|-1]).value) == 0)
  {
    hide Registered;
    var front, name := es[..|es|-1], Registered(es[|es|-1]);
    if RegisteredOnce(es) {
      forall n ensures Times(front, n) <= 1 { assert Times(es, n) <= 1; }
      if name.Some? { assert Times(es, name.value) <= 1; }
    }
    if RegisteredOnce(front) && (name.Some? ==> Times(front, name.value) == 0) {
      forall n ensures Times(es, n) <= 1 { assert Times(front, n) <= 1; }
    }
  }

  /** The duplicate check is exact: no error if and only if no name was registered twice. */
  lemma {:induction false} DuplicateCheckExact(es: History)
    ensures DuplicateErrors(es) == [] <==> RegisteredOnce(es)
  {
    hide Registered, RegisteredOnce;
    if es == [] {
      NoneRegistered();
    } else {
      var front := es[..|es|-1];
      DuplicateCheckExact(front);
      OnceStep(es);
      if Registered(es[|es|-1]).Some? { RegisteredSometime(front, Registered(es[|es|-1]).value); }
    }
  }

  /** The event registers the name. */
  predicate Registers(e: Event, name: string) {
    e.eventType == "worker_registered" && Name(Doc(e), "worker_name") == Some(name)
  }

  /** Event `n` registers a name that an earlier event has registered. */
  ghost predicate RegistersAgain(es: History, n: nat, name: string) {
    n < |es| && Registers(es[n], name) && exists m: nat :: m < n && Registers(es[m], name)
  }

  lemma {:induction false} NamedSometime(es: History, name: string)
    ensures name in Workers(es) <==> exists n: nat :: n < |es| && Registers(es[n], name)
  {
    hide Doc;
    if es != [] {
      var front := es[..|es|-1];
      NamedSometime(front, name);
      if n: nat :| n < |front| && Registers(front[n], name) { assert Registers(es[n], name); }
      if n: nat :| n < |es| && Registers(es[n], name) {
        if n < |front| { assert Registers(front[n], name); }
      }
    }
  }

  lemma AgainIs(es: History, name: string)
    requires es != []
    ensures var front, e := es[..|es|-1], es[|es|-1];
      RegistersAgain(es, |es| - 1, name) <==> Repeats(front, e) && Registered(e) == Some(name)
  {
    hide Doc;
    NamedSometime(es[..|es|-1], name);
  }

  /** The check reports exactly the names registered again. */
  lemma {:induction false} DuplicateFinds(es: History, x: AuditError)
    ensures x in DuplicateErrors(es) <==>
      exists n: nat, name :: RegistersAgain(es, n, name) && x == AuditError("DUPLICATE_WORKER_REGISTRATION", name)
  {
    hide Registered, Registers, Workers;
    if es != [] {
      var front, m := es[..|es|-1], |es| - 1;
      DuplicateFinds(front, x);
      AgainIs(es, x.id);
      forall n: nat, name | n < m ensures RegistersAgain(es, n, name) <==> RegistersAgain(front, n, name) { }
      if n: nat, name :| RegistersAgain(front, n, name) && x == AuditError("DUPLICATE_WORKER_REGISTRATION", name) {
        assert RegistersAgain(es, n, name);
      }
    }
  }

  function WorkerRowErrors(actual: WorkerTable, expected: WorkerTable): string -> ErrorList {
    (n: string) =>
      if n !in expected then []
      else if n !in actual then [AuditError("WORKER_PROJECTION_MISMATCH", n)]
      else
        When(actual[n].registeredAt != expected[n].registeredAt, "WORKER_PROJECTION_UPDATED_AT_MISMATCH", n) +
        When(actual[n].lastEventId != expected[n].lastEventId, "WORKER_PROJECTION_LAST_EVENT_ID_MISMATCH", n)
  }

  /** `check_worker_projection`. */
  method CheckWorkerProjection(actual: WorkerTable, es: History) returns (errors: ErrorList)
    ensures errors ==
      Collect(SortedKeys(Workers(es).Keys), WorkerRowErrors(actual, Workers(es))) +
      Collect(SortedKeys(actual.Keys - Workers(es).Keys), Unexpected("WORKER_PROJECTION_UNEXPECTED_ENTRY"))
  {
    var expected := ComputeExpectedWorkers(es);
    errors := Report(SortedKeys(expected.Keys), WorkerRowErrors(actual, expected));
    var more := Report(SortedKeys(actual.Keys - expected.Keys), Unexpected("WORKER_PROJECTION_UNEXPECTED_ENTRY"));
    errors := errors + more;
  }

  lemma WorkerRowsEmpty(actual: WorkerTable, expected: WorkerTable)
    ensures Collect(SortedKeys(expected.Keys), WorkerRowErrors(actual, expected)) == []
       <==> forall n :: n in expected ==> n in actual && actual[n] == expected[n]
  {
    var of := WorkerRowErrors(actual, expected);
    CollectEmpty(SortedKeys(expected.Keys), of);
    forall n | n in expected
      ensures of(n) == [] <==> (n in actual && actual[n] == expected[n])
    {
    }
  }

  /** What the comparison has to say of a worker. */
  predicate RowWrong(actual: WorkerTable, expected: WorkerTable, n: string, code: string) {
    if n !in expected then n in actual && code == "WORKER_PROJECTION_UNEXPECTED_ENTRY"
    else if n !in actual then code == "WORKER_PROJECTION_MISMATCH"
    else
      || (code == "WORKER_PROJECTION_UPDATED_AT_MISMATCH" && actual[n].registeredAt != expected[n].registeredAt)
      || (code == "WORKER_PROJECTION_LAST_EVENT_ID_MISMATCH" && actual[n].lastEventId != expected[n].lastEventId)
  }

  lemma WorkerRowFinds(actual: WorkerTable, expected: WorkerTable, n: string, x: AuditError)
    ensures x in WorkerRowErrors(actual, expected)(n) <==> x.id == n && n in expected && RowWrong(actual, expected, n, x.code)
  {
    if n in expected && n in actual {
      WhenFinds(actual[n].registeredAt != expected[n].registeredAt, "WORKER_PROJECTION_UPDATED_AT_MISMATCH", n, x);
      WhenFinds(actual[n].lastEventId != expected[n].lastEventId, "WORKER_PROJECTION_LAST_EVENT_ID_MISMATCH", n, x);
      hide When;
    }
  }

  /** It reports exactly that. */
  lemma WorkerErrorsFind(actual: WorkerTable, expected: WorkerTable, x: AuditError)
    ensures x in Collect(SortedKeys(expected.Keys), WorkerRowErrors(actual, expected)) +
                 Collect(SortedKeys(actual.Keys - expected.Keys), Unexpected("WORKER_PROJECTION_UNEXPECTED_ENTRY"))
       <==> RowWrong(actual, expected, x.id, x.code)
  {
    forall n { WorkerRowFinds(actual, expected, n, x); }
    hide WorkerRowErrors, Collect, Unexpected;
    ReportFinds(SortedKeys(expected.Keys), WorkerRowErrors(actual, expected), x);
    UnexpectedFinds(actual.Keys - expected.Keys, "WORKER_PROJECTION_UNEXPECTED_ENTRY", x);
  }

  /** The comparison is exact: no error if and only if the tables are equal. */
  lemma WorkerErrorsEmpty(actual: WorkerTable, expected: WorkerTable)
    ensures Collect(SortedKeys(expected.Keys), WorkerRowErrors(actual, expected)) +
            Collect(SortedKeys(actual.Keys - expected.Keys), Unexpected("WORKER_PROJECTION_UNEXPECTED_ENTRY")) == []
       <==> actual == expected
  {
    hide WorkerRowErrors, Collect, Unexpected;
    WorkerRowsEmpty(actual, expected);
    UnexpectedEmpty(actual.Keys - expected.Keys, "WORKER_PROJECTION_UNEXPECTED_ENTRY");
    if actual.Keys - expected.Keys == {} && forall n :: n in expected ==> n in actual && actual[n] == expected[n] {
      assert forall n :: n in actual ==> n in actual.Keys - expected.Keys || n in expected;
      assert actual == expected;
    }
  }

  /** On every history, legal or not, rebuilding the worker table and then checking it reports nothing. */
  method RebuildPassesAudit(db: Database) returns (errors: ErrorList)
    modifies db`workers
    ensures errors == [] && db.workers == Workers(db.events)
  {
    RebuildWorkers(db);
    errors := CheckWorkerProjection(db.workers, db.events);
    WorkerErrorsEmpty(db.workers, Workers(db.events));
  }
}
