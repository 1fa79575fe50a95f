/** Receipts: the events of one intent as three queries find them and as the auditor groups them,
    and the `receipt_projection` snapshot made from them. */
module Receipts {
  import opened Strings
  import opened Json
  import opened Ledger
  import opened State
  import opened Errors
  import Lifecycle
  import Inbox

  function RunId(e: Event): Option<string> {
    Lifecycle.RunId(e)
  }

  // ---------------------------------------------------------------- the three queries

  predicate RunOf(e: Event, i: string) {
    e.eventType == "run_created" && e.operationId == Some(i)
  }

  /** The runs created under operation `i`. */
  function RunsOf(es: History, i: string): set<string> {
    if es == [] then {}
    else
      RunsOf(es[..|es|-1], i) + if RunOf(es[|es|-1], i) && RunId(es[|es|-1]).Some? then {RunId(es[|es|-1]).value} else {}
  }

  predicate RefersToAny(e: Event, runs: set<string>) {
    exists r :: r in runs && Refers(e, "run_id", r)
  }

  /** One of the three queries returns the event. */
  predicate Belongs(runs: set<string>, i: string, e: Event) {
    Refers(e, "intent_id", i) || RunOf(e, i) || RefersToAny(e, runs)
  }

  /** The events of intent `i`, in ledger order. */
  function Receipt(runs: set<string>, i: string, es: History): History {
    if es == [] then []
    else Receipt(runs, i, es[..|es|-1]) + if Belongs(runs, i, es[|es|-1]) then [es[|es|-1]] else []
  }

  /** `rows_by_event_id`: event id to row number. */
  type RowsById = map<string, nat>

  /** The dict holds the rows of exactly the events that `p` selects. */
  ghost predicate Holds(rows: RowsById, es: History, p: Event -> bool) {
    && (forall k :: 0 <= k < |es| ==> (es[k].id in rows <==> p(es[k])))
    && forall x :: x in rows ==> rows[x] < |es| && es[rows[x]].id == x
  }

  function Either(p: Event -> bool, q: Event -> bool): Event -> bool {
    (e: Event) => p(e) || q(e)
  }

  /** The rows of the first `n` events that `q` selects are in, and those selected before. */
  ghost predicate Collecting(rows: RowsById, es: History, p: Event -> bool, q: Event -> bool, n: nat) {
    && (forall k :: 0 <= k < |es| ==> (es[k].id in rows <==> p(es[k]) || (k < n && q(es[k]))))
    && forall x :: x in rows ==> rows[x] < |es| && es[rows[x]].id == x
  }

  /** One query, and `_collect`. */
  method Collected(es: History, rows: RowsById, ghost p: Event -> bool, q: Event -> bool) returns (more: RowsById)
    requires DistinctIds(es) && Holds(rows, es, p)
    ensures Holds(more, es, Either(p, q))
  {
    more := rows;
    for k := 0 to |es|
      invariant Collecting(more, es, p, q, k)
    {
      if q(es[k]) { more := more[es[k].id := k]; }
    }
  }

  method CollectRuns(es: History, i: string) returns (runs: set<string>)
    ensures runs == RunsOf(es, i)
  {
    runs := {};
    for k := 0 to |es|
      invariant runs == RunsOf(es[..k], i)
    {
      Upto(es, k);
      if RunOf(es[k], i) && RunId(es[k]).Some? { runs := runs + {RunId(es[k]).value}; }
    }
    assert es[..|es|] == es;
  }

  /** The direct query and the query for created runs. */
  function FirstTwo(i: string): Event -> bool {
    (e: Event) => Refers(e, "intent_id", i) || RunOf(e, i)
  }

  function WithRuns(i: string, runs: set<string>): Event -> bool {
    (e: Event) => Belongs(runs, i, e)
  }

  lemma HoldsSame(rows: RowsById, es: History, p: Event -> bool, q: Event -> bool)
    requires Holds(rows, es, p) && forall e :: p(e) <==> q(e)
    ensures Holds(rows, es, q)
  {
  }

  method CollectRunRows(es: History, rows: RowsById, i: string, runs: set<string>) returns (all: RowsById)
    requires DistinctIds(es) && Holds(rows, es, FirstTwo(i))
    ensures Holds(all, es, WithRuns(i, runs))
  {
    hide Holds, DistinctIds, RunOf;
    var keys := SortedKeys(runs);
    all := rows;
    ghost var done: set<string> := {};
    assert forall e :: FirstTwo(i)(e) <==> WithRuns(i, {})(e);
    HoldsSame(all, es, FirstTwo(i), WithRuns(i, {}));
    for n := 0 to |keys|
      invariant forall r :: r in done <==> r in keys[..n]
      invariant Holds(all, es, WithRuns(i, done))
    {
      var r := keys[n];
      assert keys[..n+1] == keys[..n] + [r];
      all := Collected(es, all, WithRuns(i, done), (e: Event) => Refers(e, "run_id", r));
      OneMoreRun(i, done, r);
      HoldsSame(all, es, Either(WithRuns(i, done), (e: Event) => Refers(e, "run_id", r)), WithRuns(i, done + {r}));
      done := done + {r};
    }
    assert keys[..|keys|] == keys;
    assert done == runs;
  }

  lemma OneMoreRun(i: string, done: set<string>, r: string)
    ensures forall e ::
      Either(WithRuns(i, done), (e: Event) => Refers(e, "run_id", r))(e) <==> WithRuns(i, done + {r})(e)
  {
    hide RunOf;
    forall e ensures RefersToAny(e, done + {r}) <==> RefersToAny(e, done) || Refers(e, "run_id", r) {
      if RefersToAny(e, done) {
        var x :| x in done && Refers(e, "run_id", x);
        assert x in done + {r};
      }
      assert r in done + {r};
    }
  }

  /** Sorting the collected rows by row number. */
  method InLedgerOrder(es: History, rows: RowsById, i: string, runs: set<string>) returns (events: History)
    requires Holds(rows, es, WithRuns(i, runs))
    ensures events == Receipt(runs, i, es)
  {
    hide Belongs;
    events := [];
    for k := 0 to |es|
      invariant events == Receipt(runs, i, es[..k])
    {
      Upto(es, k);
      if es[k].id in rows { events := events + [es[k]]; }
    }
    assert es[..|es|] == es;
  }

  /** `list_receipt_events`: the union of the three queries, once each, in ledger order. */
  method ListReceiptEvents(es: History, i: string) returns (events: History)
    requires DistinctIds(es)
    ensures events == Receipt(RunsOf(es, i), i, es)
  {
    hide Holds, DistinctIds, RunOf, Refers;
    NothingCollected(es);
    var rows := Collected(es, map[], (e: Event) => false, (e: Event) => Refers(e, "intent_id", i));
    var more := Collected(es, rows, Either((e: Event) => false, (e: Event) => Refers(e, "intent_id", i)), (e: Event) => RunOf(e, i));
    HoldsSame(more, es,
      Either(Either((e: Event) => false, (e: Event) => Refers(e, "intent_id", i)), (e: Event) => RunOf(e, i)), FirstTwo(i));
    var runs := CollectRuns(es, i);
    var all := CollectRunRows(es, more, i, runs);
    events := InLedgerOrder(es, all, i, runs);
  }

  lemma NothingCollected(es: History)
    ensures Holds(map[], es, (e: Event) => false)
  {
  }

  // ---------------------------------------------------------------- the auditor's grouping

  /** The intent a payload names: at the top, in its content, or in its artifact's content. */
  function DirectIn(m: map<string, Json>): Option<string> {
    if Name(m, "intent_id").Some? then Name(m, "intent_id")
    else if Name(Sub(m, "content"), "intent_id").Some? then Name(Sub(m, "content"), "intent_id")
    else Name(Sub(Sub(m, "artifact"), "content"), "intent_id")
  }

  function Direct(e: Event): Option<string> {
    DirectIn(Doc(e))
  }

  /** The auditor takes the id at the top before the one in the content, and that before the one in the artifact's
      content, and no empty one. */
  lemma DirectOrder(e: Event)
    ensures var top, below := Name(Doc(e), "intent_id"), Name(Sub(Doc(e), "content"), "intent_id");
      var deep := Name(Sub(Sub(Doc(e), "artifact"), "content"), "intent_id");
      && (top.Some? ==> Direct(e) == top) && (top.None? && below.Some? ==> Direct(e) == below)
      && (top.None? && below.None? ==> Direct(e) == deep) && Direct(e) != Some("")
  {
    hide Doc;
  }

  /** The operation a `run_created` row bridges its run to. */
  predicate Bridges(e: Event) {
    e.eventType == "run_created" && RunId(e).Some? && e.operationId.Some? && e.operationId.value != ""
  }

  function BridgeStep(b: map<string, string>, e: Event): map<string, string> {
    if Bridges(e) then b[RunId(e).value := e.operationId.value] else b
  }

  function Bridge(es: History): map<string, string> {
    if es == [] then map[] else BridgeStep(Bridge(es[..|es|-1]), es[|es|-1])
  }

  /** Event `n` is the last that creates run `r` under an operation. */
  ghost predicate LastCreation(es: History, r: string, n: nat) {
    && n < |es| && Bridges(es[n]) && RunId(es[n]) == Some(r)
    && forall k :: n < k < |es| ==> !(Bridges(es[k]) && RunId(es[k]) == Some(r))
  }

  /** A run is bridged to the operation of its last creation. */
  lemma {:induction false} BridgeIsLast(es: History, r: string)
    ensures r in Bridge(es) <==> exists n: nat :: LastCreation(es, r, n)
    ensures forall n: nat :: LastCreation(es, r, n) ==> r in Bridge(es) && es[n].operationId == Some(Bridge(es)[r])
  {
    hide Lifecycle.RunId;
    if es != [] {
      var front, m := es[..|es|-1], |es| - 1;
      BridgeIsLast(front, r);
      if Bridges(es[m]) && RunId(es[m]) == Some(r) {
        assert LastCreation(es, r, m);
        assert forall n: nat :: LastCreation(es, r, n) ==> n == m;
      } else {
        forall n: nat ensures LastCreation(es, r, n) <==> LastCreation(front, r, n) {
          if n < m { assert front[n] == es[n]; }
        }
      }
    }
  }

  /** The intent an event is filed under. */
  function Assigned(bridge: map<string, string>, e: Event): Option<string> {
    if Direct(e).Some? then Direct(e)
    else if RunId(e).Some? && RunId(e).value in bridge then Some(bridge[RunId(e).value])
    else None
  }

  function Group(bridge: map<string, string>, i: string, es: History): History {
    if es == [] then []
    else Group(bridge, i, es[..|es|-1]) + if Assigned(bridge, es[|es|-1]) == Some(i) then [es[|es|-1]] else []
  }

  type Groups = map<string, History>

  ghost predicate Grouped(g: Groups, bridge: map<string, string>, es: History) {
    forall i :: (i in g <==> Group(bridge, i, es) != []) && (i in g ==> g[i] == Group(bridge, i, es))
  }

  /** The dict holds what each of the first `n` events names directly, under its id. */
  ghost predicate Keyed(direct: map<string, string>, es: History, n: nat)
    requires n <= |es|
  {
    && (forall x :: x in direct ==> IdOf(es[..n], x))
    && forall j :: 0 <= j < n ==> Direct(es[j]) == if es[j].id in direct then Some(direct[es[j].id]) else None
  }

  lemma KeyedStep(direct: map<string, string>, es: History, k: nat)
    requires k < |es| && DistinctIds(es) && Keyed(direct, es, k)
    ensures Keyed(if Direct(es[k]).Some? then direct[es[k].id := Direct(es[k]).value] else direct, es, k + 1)
  {
    hide Direct;
    var more := if Direct(es[k]).Some? then direct[es[k].id := Direct(es[k]).value] else direct;
    assert es[..k+1][k].id == es[k].id;
    forall x | x in more ensures IdOf(es[..k+1], x) {
      if x != es[k].id {
        var j :| 0 <= j < k && es[..k][j].id == x;
        assert es[..k+1][j].id == x;
      } else {
        assert IdOf(es[..k+1], es[k].id);
      }
    }
    assert es[k].id !in direct;
  }

  /** The first pass: ids named directly, keyed by event id, and the bridge. */
  method FirstPass(es: History) returns (direct: map<string, string>, bridge: map<string, string>)
    ensures bridge == Bridge(es)
    ensures DistinctIds(es) ==> Keyed(direct, es, |es|)
  {
    hide Direct, Lifecycle.RunId;
    direct, bridge := map[], map[];
    for k := 0 to |es|
      invariant bridge == Bridge(es[..k])
      invariant DistinctIds(es) ==> Keyed(direct, es, k)
    {
      Upto(es, k);
      if DistinctIds(es) { KeyedStep(direct, es, k); }
      if Direct(es[k]).Some? { direct := direct[es[k].id := Direct(es[k]).value]; }
      if Bridges(es[k]) { bridge := bridge[RunId(es[k]).value := es[k].operationId.value]; }
    }
    assert es[..|es|] == es;
  }

  lemma GroupStep(was: Groups, bridge: map<string, string>, es: History, e: Event)
    requires Grouped(was, bridge, es)
    ensures Grouped(
      if Assigned(bridge, e).Some?
      then was[Assigned(bridge, e).value := (if Assigned(bridge, e).value in was then was[Assigned(bridge, e).value] else []) + [e]]
      else was, bridge, es + [e])
  {
    hide Assigned;
    Snoc(es, e);
    forall i
      ensures Group(bridge, i, es + [e]) == Group(bridge, i, es) + if Assigned(bridge, e) == Some(i) then [e] else []
    {
    }
  }

  /** The second pass: every event to its group. */
  method SecondPass(es: History, direct: map<string, string>, bridge: map<string, string>) returns (groups: Groups)
    ensures Keyed(direct, es, |es|) ==> Grouped(groups, bridge, es)
  {
    hide Direct, Grouped, IdOf;
    groups := map[];
    NothingGrouped(bridge);
    for k := 0 to |es|
      invariant Keyed(direct, es, |es|) ==> Grouped(groups, bridge, es[..k])
    {
      Upto(es, k);
      if Keyed(direct, es, |es|) { GroupStep(groups, bridge, es[..k], es[k]); }
      var intent := if es[k].id in direct then Some(direct[es[k].id]) else None;
      if intent.None? && RunId(es[k]).Some? && RunId(es[k]).value in bridge {
        intent := Some(bridge[RunId(es[k]).value]);
      }
      if intent.Some? {
        groups := groups[intent.value := (if intent.value in groups then groups[intent.value] else []) + [es[k]]];
      }
    }
    assert es[..|es|] == es;
  }

  lemma NothingGrouped(bridge: map<string, string>)
    ensures Grouped(map[], bridge, [])
  {
  }

  function RowOf(events: History): ReceiptRow
    requires events != []
  {
    ReceiptRow(events[0].id, events[|events|-1].id, |events|, events[|events|-1].createdAt)
  }

  /** The row expected for intent `i`, if any event is filed under it. */
  function ExpectedRow(es: History, i: string): Option<ReceiptRow> {
    var events := Group(Bridge(es), i, es);
    if events == [] then None else Some(RowOf(events))
  }

  /** `compute_expected_receipt_projection`. */
  method ComputeExpectedReceipts(es: History) returns (expected: ReceiptTable)
    ensures DistinctIds(es) ==>
      forall i :: if i in expected then ExpectedRow(es, i) == Some(expected[i]) else ExpectedRow(es, i) == None
    ensures DistinctIds(es) ==>
      forall i :: i in expected ==> Summed(expected[i], es, FiledUnder(Bridge(es), i))
  {
    forall i | ExpectedRow(es, i).Some?
      ensures Summed(ExpectedRow(es, i).value, es, FiledUnder(Bridge(es), i))
    {
      ExpectedRowSums(es, i);
    }
    hide DistinctIds, Summed;
    var direct, bridge := FirstPass(es);
    var groups := SecondPass(es, direct, bridge);
    expected := map i | i in groups && groups[i] != [] :: RowOf(groups[i]);
  }

  // ---------------------------------------------------------------- agreement

  /** The payload names one intent at most, where the auditor looks for it. */
  ghost predicate ReceiptShaped(e: Event) {
    IsDoc(e) && forall i :: i != "" ==> (Mentioned(e, "intent_id", i) <==> Direct(e) == Some(i))
  }

  /** A run is created once, under an operation; its events name no intent but that operation. */
  predicate LegalBridge(before: History, e: Event) {
    if e.eventType == "run_created" then
      Bridges(e) && RunId(e).value !in Bridge(before) && Direct(e).None?
    else
      RunId(e).Some? ==>
        RunId(e).value in Bridge(before) && (Direct(e).None? || Direct(e).value == Bridge(before)[RunId(e).value])
  }

  ghost predicate LegalReceipts(es: History) {
    es == [] ||
    (LegalReceipts(es[..|es|-1]) && ReceiptShaped(es[|es|-1]) && Lifecycle.RunShaped(es[|es|-1])
     && LegalBridge(es[..|es|-1], es[|es|-1]))
  }

  /** Entries of the bridge stay as they are. */
  lemma {:induction false} BridgeGrows(es: History, n: nat, r: string)
    requires LegalReceipts(es) && n <= |es| && r in Bridge(es[..n])
    ensures r in Bridge(es) && Bridge(es)[r] == Bridge(es[..n])[r]
  {
    hide Direct, ReceiptShaped, Lifecycle.RunShaped;
    if n < |es| {
      assert es[..|es|-1][..n] == es[..n];
      BridgeGrows(es[..|es|-1], n, r);
    } else {
      assert es[..n] == es;
    }
  }

  lemma {:induction false} RunsAreBridged(es: History, i: string, r: string)
    requires LegalReceipts(es) && i != ""
    ensures r in RunsOf(es, i) <==> r in Bridge(es) && Bridge(es)[r] == i
  {
    hide Direct, ReceiptShaped, Lifecycle.RunShaped;
    if es != [] { RunsAreBridged(es[..|es|-1], i, r); }
  }

  lemma {:induction false} LegalAt(es: History, k: nat)
    requires LegalReceipts(es) && k < |es|
    ensures ReceiptShaped(es[k]) && Lifecycle.RunShaped(es[k]) && LegalBridge(es[..k], es[k])
  {
    hide LegalBridge, ReceiptShaped, Lifecycle.RunShaped;
    if k < |es| - 1 {
      LegalAt(es[..|es|-1], k);
      assert es[..|es|-1][..k] == es[..k];
    } else {
      assert es[..|es|-1] == es[..k];
    }
  }

  /** What the final bridge says about the run of an event. */
  lemma EventBridged(es: History, k: nat)
    requires LegalReceipts(es) && k < |es| && RunId(es[k]).Some?
    ensures var r := RunId(es[k]).value;
      && r in Bridge(es) && (Direct(es[k]).None? || Direct(es[k]).value == Bridge(es)[r])
      && (es[k].eventType == "run_created" ==> es[k].operationId == Some(Bridge(es)[r]) && Direct(es[k]).None?)
  {
    hide Direct, ReceiptShaped, Lifecycle.RunShaped, Mentioned;
    LegalAt(es, k);
    var r := RunId(es[k]).value;
    if es[k].eventType == "run_created" {
      Upto(es, k);
      BridgeGrows(es, k + 1, r);
    } else {
      BridgeGrows(es, k, r);
    }
  }

  lemma RunNamed(e: Event)
    requires Lifecycle.RunShaped(e)
    ensures forall r :: Mentioned(e, "run_id", r) <==> Lifecycle.IsRunEvent(e.eventType) && RunId(e) == Some(r)
    ensures e.eventType == "run_created" ==> RunId(e).Some?
    ensures RunId(e).Some? ==> Lifecycle.IsRunEvent(e.eventType)
  {
    hide Mentions;
    if RunId(e).Some? {
      Named(e, "run_id", RunId(e).value);
    }
  }

  /** A top-level field is mentioned. */
  lemma Named(e: Event, k: string, s: string)
    requires Name(Doc(e), k) == Some(s)
    ensures Mentioned(e, k, s)
  {
  }

  /** The lookups that make up the receipt of `i` are exact. */
  ghost predicate ExactFor(es: History, i: string) {
    Exact(es, "intent_id", i) && forall r :: r in RunsOf(es, i) ==> Exact(es, "run_id", r)
  }

  lemma MentionsOwn(e: Event, runs: set<string>)
    requires RunId(e).Some? && Lifecycle.IsRunEvent(e.eventType)
    requires forall r :: Mentioned(e, "run_id", r) <==> Lifecycle.IsRunEvent(e.eventType) && RunId(e) == Some(r)
    requires forall r :: r in runs ==> (Refers(e, "run_id", r) <==> Mentioned(e, "run_id", r))
    ensures RefersToAny(e, runs) <==> RunId(e).value in runs
  {
    hide Refers, Mentioned;
  }

  /** The queries return an event for `i` exactly when the auditor files it under `i`. */
  lemma BelongsIsAssigned(es: History, i: string, k: nat)
    requires LegalReceipts(es) && i != "" && k < |es| && ExactFor(es, i)
    ensures Belongs(RunsOf(es, i), i, es[k]) <==> Assigned(Bridge(es), es[k]) == Some(i)
  {
    hide Direct, Refers, Mentioned, Lifecycle.RunId, Lifecycle.IsRunEvent, Bridge, RunsOf, Lifecycle.RunShaped, LegalReceipts;
    var e, runs := es[k], RunsOf(es, i);
    LegalAt(es, k);
    RunNamed(e);
    if RunId(e).Some? {
      EventBridged(es, k);
      RunsAreBridged(es, i, RunId(e).value);
      assert RefersToAny(e, runs) <==> RunId(e).value in runs by { MentionsOwn(e, runs); }
    } else {
      assert !RefersToAny(e, runs);
    }
  }

  lemma {:induction false} SameSelection(es: History, i: string, n: nat)
    requires LegalReceipts(es) && i != "" && n <= |es| && ExactFor(es, i)
    ensures Receipt(RunsOf(es, i), i, es[..n]) == Group(Bridge(es), i, es[..n])
  {
    hide Belongs, Assigned, LegalReceipts, RunsOf, Bridge, ExactFor;
    if n > 0 {
      SameSelection(es, i, n - 1);
      BelongsIsAssigned(es, i, n - 1);
      Upto(es, n - 1);
    }
  }

  /** The union of the three queries is the auditor's group: the same events, once each, in order. */
  lemma ReceiptsAgree(es: History, i: string)
    requires LegalReceipts(es) && i != "" && ExactFor(es, i)
    ensures Receipt(RunsOf(es, i), i, es) == Group(Bridge(es), i, es)
  {
    hide ExactFor, LegalReceipts;
    SameSelection(es, i, |es|);
    assert es[..|es|] == es;
  }

  // ---------------------------------------------------------------- the projection

  /** The row `rebuild_receipt_projection` inserts for a submitted intent. */
  function RebuiltRow(es: History, i: string): Option<ReceiptRow> {
    var events := Receipt(RunsOf(es, i), i, es);
    if events == [] then None else Some(RowOf(events))
  }

  /** What `rebuild_receipt_projection` computes from a history. */
  function RebuiltTable(es: History): ReceiptTable {
    map i | i in Inbox.KnownIntents(es) && RebuiltRow(es, i).Some? :: RebuiltRow(es, i).value
  }

  /** `rebuild_receipt_projection`. */
  method RebuildReceipts(db: Database)
    requires DistinctIds(db.events)
    modifies db`receipts
    ensures db.receipts == RebuiltTable(db.events)
    ensures forall i :: i in db.receipts ==>
      Summed(db.receipts[i], db.events, WithRuns(i, RunsOf(db.events, i)))
  {
    hide Receipt, RunsOf, DistinctIds, Summed;
    forall i | i in RebuiltTable(db.events)
      ensures Summed(RebuiltTable(db.events)[i], db.events, WithRuns(i, RunsOf(db.events, i)))
    {
      RebuiltRowSums(db.events, i);
    }
    var es := db.events;
    var intents := Inbox.CollectKnownIntents(es);
    var keys := SortedKeys(intents);
    var table: ReceiptTable := map[];
    for n := 0 to |keys|
      invariant forall i :: i in table <==> i in keys[..n] && RebuiltRow(es, i).Some?
      invariant forall i :: i in table ==> RebuiltRow(es, i) == Some(table[i])
    {
      assert keys[..n+1] == keys[..n] + [keys[n]];
      var events := ListReceiptEvents(es, keys[n]);
      if events != [] { table := table[keys[n] := RowOf(events)]; }
    }
    assert keys[..|keys|] == keys;
    assert table == RebuiltTable(es);
    db.receipts := table;
  }

  /** `get_receipt_bundle` as far as its events go: reading a bundle refreshes its row. */
  method GetReceiptBundle(db: Database, i: string) returns (events: History)
    requires DistinctIds(db.events)
    modifies db`receipts
    ensures events == Receipt(RunsOf(db.events, i), i, db.events)
    ensures db.receipts == if events == [] then old(db.receipts) else old(db.receipts)[i := RowOf(events)]
    ensures events != [] ==> Summed(db.receipts[i], db.events, WithRuns(i, RunsOf(db.events, i)))
  {
    BundleSums(db.events, i);
    hide Summed, Receipt, RunsOf, RowOf;
    events := ListReceiptEvents(db.events, i);
    if events != [] { db.receipts := db.receipts[i := RowOf(events)]; }
  }

  function RowErrors(actual: ReceiptTable, es: History): string -> ErrorList {
    (i: string) =>
      if i !in actual then []
      else
        match ExpectedRow(es, i)
        case None => [AuditError("RECEIPT_PROJECTION_UNEXPECTED_ENTRY", i)]
        case Some(x) =>
          When(actual[i].firstEventId != x.firstEventId, "RECEIPT_FIRST_EVENT_ID_MISMATCH", i) +
          When(actual[i].lastEventId != x.lastEventId, "RECEIPT_LAST_EVENT_ID_MISMATCH", i) +
          When(actual[i].eventCount != x.eventCount, "RECEIPT_EVENT_COUNT_MISMATCH", i) +
          When(actual[i].updatedAt != x.updatedAt, "RECEIPT_UPDATED_AT_MISMATCH", i)
  }

  /** `check_receipt_projection` walks the rows that exist. */
  method CheckReceiptProjection(actual: ReceiptTable, es: History) returns (errors: ErrorList)
    ensures DistinctIds(es) ==> errors == Collect(SortedKeys(actual.Keys), RowErrors(actual, es))
  {
    hide DistinctIds, ExpectedRow;
    var expected := ComputeExpectedReceipts(es);
    var keys := SortedKeys(actual.Keys);
    errors := [];
    for n := 0 to |keys|
      invariant DistinctIds(es) ==> errors == Collect(keys[..n], RowErrors(actual, es))
    {
      CollectUpto(keys, RowErrors(actual, es), n);
      var i := keys[n];
      if i !in expected {
        errors := errors + [AuditError("RECEIPT_PROJECTION_UNEXPECTED_ENTRY", i)];
      } else {
        var x := expected[i];
        var more :=
          When(actual[i].firstEventId != x.firstEventId, "RECEIPT_FIRST_EVENT_ID_MISMATCH", i) +
          When(actual[i].lastEventId != x.lastEventId, "RECEIPT_LAST_EVENT_ID_MISMATCH", i) +
          When(actual[i].eventCount != x.eventCount, "RECEIPT_EVENT_COUNT_MISMATCH", i) +
          When(actual[i].updatedAt != x.updatedAt, "RECEIPT_UPDATED_AT_MISMATCH", i);
        errors := errors + more;
      }
    }
    assert keys[..|keys|] == keys;
  }

  /** The comparison is exact on the rows that exist. */
  lemma ReceiptErrorsEmpty(actual: ReceiptTable, es: History)
    ensures Collect(SortedKeys(actual.Keys), RowErrors(actual, es)) == []
       <==> forall i :: i in actual ==> ExpectedRow(es, i) == Some(actual[i])
  {
    hide *;
    CollectEmpty(SortedKeys(actual.Keys), RowErrors(actual, es));
    forall i | i in actual ensures RowErrors(actual, es)(i) == [] <==> ExpectedRow(es, i) == Some(actual[i]) {
      RowClean(actual, es, i);
    }
  }

  lemma RowClean(actual: ReceiptTable, es: History, i: string)
    requires i in actual
    ensures RowErrors(actual, es)(i) == [] <==> ExpectedRow(es, i) == Some(actual[i])
  {
    hide ExpectedRow;
  }

  /** What the comparison has to say of the row of an intent. */
  predicate RowWrong(actual: ReceiptTable, es: History, i: string, code: string) {
    && i in actual
    && match ExpectedRow(es, i)
       case None => code == "RECEIPT_PROJECTION_UNEXPECTED_ENTRY"
       case Some(row) =>
         || (code == "RECEIPT_FIRST_EVENT_ID_MISMATCH" && actual[i].firstEventId != row.firstEventId)
         || (code == "RECEIPT_LAST_EVENT_ID_MISMATCH" && actual[i].lastEventId != row.lastEventId)
         || (code == "RECEIPT_EVENT_COUNT_MISMATCH" && actual[i].eventCount != row.eventCount)
         || (code == "RECEIPT_UPDATED_AT_MISMATCH" && actual[i].updatedAt != row.updatedAt)
  }

  lemma RowFinds(actual: ReceiptTable, es: History, i: string, x: AuditError)
    ensures x in RowErrors(actual, es)(i) <==> x.id == i && RowWrong(actual, es, i, x.code)
  {
    hide ExpectedRow;
    if i in actual && ExpectedRow(es, i).Some? {
      var row := ExpectedRow(es, i).value;
      WhenFinds(actual[i].firstEventId != row.firstEventId, "RECEIPT_FIRST_EVENT_ID_MISMATCH", i, x);
      WhenFinds(actual[i].lastEventId != row.lastEventId, "RECEIPT_LAST_EVENT_ID_MISMATCH", i, x);
      WhenFinds(actual[i].eventCount != row.eventCount, "RECEIPT_EVENT_COUNT_MISMATCH", i, x);
      WhenFinds(actual[i].updatedAt != row.updatedAt, "RECEIPT_UPDATED_AT_MISMATCH", i, x);
      hide When;
    }
  }

  /** It reports exactly that. */
  lemma ReceiptErrorsFind(actual: ReceiptTable, es: History, x: AuditError)
    ensures x in Collect(SortedKeys(actual.Keys), RowErrors(actual, es)) <==> RowWrong(actual, es, x.id, x.code)
  {
    forall i { RowFinds(actual, es, i, x); }
    hide RowErrors, ExpectedRow, Collect;
    ReportFinds(SortedKeys(actual.Keys), RowErrors(actual, es), x);
  }

  /** Right after a rebuild every row is the expected one. */
  lemma RebuiltIsExpected(es: History)
    requires LegalReceipts(es) && forall i :: i in Inbox.KnownIntents(es) ==> ExactFor(es, i)
    ensures forall i :: i in RebuiltTable(es) ==> ExpectedRow(es, i) == Some(RebuiltTable(es)[i])
  {
    hide LegalReceipts, Receipt, Group, Bridge, RunsOf, ExactFor;
    forall i | i in RebuiltTable(es) ensures ExpectedRow(es, i) == Some(RebuiltTable(es)[i]) {
      Inbox.KnownNonEmpty(es, i);
      ReceiptsAgree(es, i);
    }
  }

  /** So the comparison reports nothing. */
  lemma RebuildPassesAudit(es: History)
    requires LegalReceipts(es) && forall i :: i in Inbox.KnownIntents(es) ==> ExactFor(es, i)
    ensures Collect(SortedKeys(RebuiltTable(es).Keys), RowErrors(RebuiltTable(es), es)) == []
  {
    hide LegalReceipts, RebuiltTable, ExactFor, ExpectedRow, Collect;
    ReceiptErrorsEmpty(RebuiltTable(es), es);
    RebuiltIsExpected(es);
  }

  // ---------------------------------------------------------------- rows by position

  /** The positions of the events that `p` selects. */
  function Positions(es: History, p: Event -> bool): set<nat> {
    set k: nat | k < |es| && p(es[k])
  }

  /** The row says which of the events that `p` selects is the first, which the last, and how many there are. */
  ghost predicate Sums(row: ReceiptRow, es: History, p: Event -> bool, m: nat, n: nat) {
    && m <= n < |es| && p(es[m]) && p(es[n])
    && (forall k :: 0 <= k < m ==> !p(es[k])) && (forall k :: n < k < |es| ==> !p(es[k]))
    && row.firstEventId == es[m].id && row.lastEventId == es[n].id && row.updatedAt == es[n].createdAt
    && row.eventCount == |Positions(es, p)|
  }

  ghost predicate Summed(row: ReceiptRow, es: History, p: Event -> bool) {
    exists m: nat, n: nat :: Sums(row, es, p, m, n)
  }

  /** The events that `p` selects, in order. */
  function Filter(es: History, p: Event -> bool): History {
    if es == [] then [] else Filter(es[..|es|-1], p) + if p(es[|es|-1]) then [es[|es|-1]] else []
  }

  lemma PositionsStep(es: History, p: Event -> bool)
    requires es != []
    ensures Positions(es, p) == Positions(es[..|es|-1], p) + if p(es[|es|-1]) then {|es| - 1} else {}
    ensures |Positions(es, p)| == |Positions(es[..|es|-1], p)| + if p(es[|es|-1]) then 1 else 0
  {
    var front, m := es[..|es|-1], |es| - 1;
    forall k: nat ensures k in Positions(es, p) <==> k in Positions(front, p) || (k == m && p(es[m])) {
      if k < m { assert front[k] == es[k]; }
    }
    assert m !in Positions(front, p);
    assert Positions(es, p) == Positions(front, p) + if p(es[m]) then {m} else {};
  }

  lemma SumsNext(es: History, p: Event -> bool, f: History, m: nat, n: nat)
    requires es != [] && f != [] && Sums(RowOf(f), es[..|es|-1], p, m, n)
    ensures var e := es[|es|-1];
      Sums(RowOf(if p(e) then f + [e] else f), es, p, m, if p(e) then |es| - 1 else n)
  {
    PositionsStep(es, p);
    hide Positions;
    var front := es[..|es|-1];
    forall j | 0 <= j < |front| ensures front[j] == es[j] { }
    assert |f| == RowOf(f).eventCount;
  }

  lemma SumsFirst(es: History, p: Event -> bool)
    requires es != [] && p(es[|es|-1]) && forall k :: 0 <= k < |es| - 1 ==> !p(es[k])
    requires |Positions(es[..|es|-1], p)| == 0
    ensures Sums(RowOf([es[|es|-1]]), es, p, |es| - 1, |es| - 1)
  {
    PositionsStep(es, p);
    hide Positions;
  }

  lemma FilterStep(es: History, p: Event -> bool)
    requires es != []
    ensures Filter(es, p) == if p(es[|es|-1]) then Filter(es[..|es|-1], p) + [es[|es|-1]] else Filter(es[..|es|-1], p)
  {
  }

  /** First, last and number of a filtered history. */
  lemma {:induction false} FilterSums(es: History, p: Event -> bool)
    ensures Filter(es, p) == [] <==> forall k :: 0 <= k < |es| ==> !p(es[k])
    ensures |Filter(es, p)| == |Positions(es, p)|
    ensures Filter(es, p) != [] ==> Summed(RowOf(Filter(es, p)), es, p)
  {
    if es != [] {
      var front, e := es[..|es|-1], es[|es|-1];
      FilterSums(front, p);
      FilterStep(es, p);
      PositionsStep(es, p);
      hide Positions, Sums, Filter, RowOf;
      forall j | 0 <= j < |front| ensures front[j] == es[j] { }
      var f := Filter(front, p);
      if f != [] {
        var m: nat, n: nat :| Sums(RowOf(f), front, p, m, n);
        SumsNext(es, p, f, m, n);
      } else if p(e) {
        SumsFirst(es, p);
        assert f + [e] == [e];
      }
    }
  }

  lemma {:induction false} ReceiptFilters(runs: set<string>, i: string, es: History)
    ensures Receipt(runs, i, es) == Filter(es, WithRuns(i, runs))
  {
    hide Belongs;
    if es != [] { ReceiptFilters(runs, i, es[..|es|-1]); }
  }

  function FiledUnder(bridge: map<string, string>, i: string): Event -> bool {
    (e: Event) => Assigned(bridge, e) == Some(i)
  }

  lemma {:induction false} GroupFilters(bridge: map<string, string>, i: string, es: History)
    ensures Group(bridge, i, es) == Filter(es, FiledUnder(bridge, i))
  {
    hide Assigned;
    if es != [] { GroupFilters(bridge, i, es[..|es|-1]); }
  }

  /** Event `n` creates run `r` under operation `i`. */
  predicate CreatesRun(es: History, i: string, r: string, n: nat) {
    n < |es| && es[n].eventType == "run_created" && es[n].operationId == Some(i) && Name(Doc(es[n]), "run_id") == Some(r)
  }

  lemma {:induction false} RunsOfIs(es: History, i: string, r: string)
    ensures r in RunsOf(es, i) <==> exists n: nat :: CreatesRun(es, i, r, n)
  {
    hide Doc;
    if es != [] {
      var front, m := es[..|es|-1], |es| - 1;
      RunsOfIs(front, i, r);
      forall n: nat ensures CreatesRun(es, i, r, n) <==> CreatesRun(front, i, r, n) || (n == m && CreatesRun(es, i, r, m)) {
        if n < m { assert front[n] == es[n]; }
      }
      assert r in RunsOf(es, i) <==> r in RunsOf(front, i) || CreatesRun(es, i, r, m);
      if r in RunsOf(es, i) && !CreatesRun(es, i, r, m) {
        var n: nat :| CreatesRun(front, i, r, n);
        assert CreatesRun(es, i, r, n);
      }
    }
  }

  /** An event belongs to an intent if and only if its text matches the lookup of the intent, it creates a run under
      the intent, or its text matches the lookup of a run created so, wherever in the ledger that is. */
  lemma BelongsIs(es: History, i: string, e: Event)
    ensures Belongs(RunsOf(es, i), i, e) <==>
      || Refers(e, "intent_id", i)
      || (e.eventType == "run_created" && e.operationId == Some(i))
      || exists n: nat, r :: CreatesRun(es, i, r, n) && Refers(e, "run_id", r)
  {
    hide Refers, Doc, RunsOf;
    forall r ensures r in RunsOf(es, i) <==> exists n: nat :: CreatesRun(es, i, r, n) { RunsOfIs(es, i, r); }
  }

  /** The auditor files an event under the intent it names, or else under the operation of the last creation of the run
      it names. */
  lemma AssignedIs(es: History, e: Event, i: string)
    ensures Assigned(Bridge(es), e) == Some(i) <==>
      || Direct(e) == Some(i)
      || (Direct(e).None? && exists n: nat, r ::
            Name(Doc(e), "run_id") == Some(r) && LastCreation(es, r, n) && es[n].operationId == Some(i))
  {
    hide Direct, Doc, Bridge;
    if Name(Doc(e), "run_id").Some? { BridgeIsLast(es, Name(Doc(e), "run_id").value); }
  }

  /** A rebuilt row is of the events the three queries find: the first, the last, how many; there is one if and only
      if the intent is known and some event is found. */
  lemma RebuiltRowSums(es: History, i: string)
    ensures i in RebuiltTable(es) <==>
      i in Inbox.KnownIntents(es) && exists k: nat :: k < |es| && Belongs(RunsOf(es, i), i, es[k])
    ensures i in RebuiltTable(es) ==>
      Summed(RebuiltTable(es)[i], es, WithRuns(i, RunsOf(es, i)))
  {
    hide Belongs, RunsOf, RowOf, Summed, Filter;
    var p := WithRuns(i, RunsOf(es, i));
    ReceiptFilters(RunsOf(es, i), i, es);
    FilterSums(es, p);
    assert forall k :: 0 <= k < |es| ==> (p(es[k]) <==> Belongs(RunsOf(es, i), i, es[k]));
  }

  /** An expected row is of the events filed under the intent, in the same way. */
  lemma ExpectedRowSums(es: History, i: string)
    ensures ExpectedRow(es, i).Some? <==> exists k: nat :: k < |es| && Assigned(Bridge(es), es[k]) == Some(i)
    ensures ExpectedRow(es, i).Some? ==>
      Summed(ExpectedRow(es, i).value, es, FiledUnder(Bridge(es), i))
  {
    hide Assigned, Bridge, RowOf, Summed, Filter;
    var p := FiledUnder(Bridge(es), i);
    GroupFilters(Bridge(es), i, es);
    FilterSums(es, p);
    assert forall k :: 0 <= k < |es| ==> (p(es[k]) <==> Assigned(Bridge(es), es[k]) == Some(i));
  }

  /** A bundle is the events found, and its row is of them. */
  lemma BundleSums(es: History, i: string)
    ensures var events := Receipt(RunsOf(es, i), i, es);
      events != [] ==> Summed(RowOf(events), es, WithRuns(i, RunsOf(es, i)))
  {
    hide Belongs, RunsOf, RowOf, Summed, Filter;
    ReceiptFilters(RunsOf(es, i), i, es);
    FilterSums(es, WithRuns(i, RunsOf(es, i)));
  }

  // ---------------------------------------------------------------- how long a row stays right

  /** A new event files no earlier event elsewhere. */
  lemma AssignedStays(es: History, e: Event, k: nat)
    requires LegalReceipts(es + [e]) && LegalReceipts(es) && k < |es|
    ensures Assigned(Bridge(es + [e]), es[k]) == Assigned(Bridge(es), es[k])
  {
    hide Direct, Mentioned, Lifecycle.RunId, Lifecycle.IsRunEvent, LegalReceipts, Bridge;
    if RunId(es[k]).Some? {
      EventBridged(es, k);
      Snoc(es, e);
      BridgeGrows(es + [e], |es|, RunId(es[k]).value);
    }
  }

  lemma {:induction false} GroupStays(es: History, e: Event, i: string, n: nat)
    requires LegalReceipts(es + [e]) && LegalReceipts(es) && n <= |es|
    ensures Group(Bridge(es + [e]), i, es[..n]) == Group(Bridge(es), i, es[..n])
  {
    hide Assigned, LegalReceipts, Bridge;
    if n > 0 {
      GroupStays(es, e, i, n - 1);
      AssignedStays(es, e, n - 1);
      Upto(es, n - 1);
    }
  }

  /** A receipt row stays what the auditor expects until the next event of its intent, no longer. */
  lemma RowStaysUntilNextEvent(es: History, e: Event, i: string)
    requires LegalReceipts(es + [e]) && ExpectedRow(es, i).Some?
    ensures ExpectedRow(es + [e], i) == ExpectedRow(es, i) <==> Assigned(Bridge(es + [e]), e) != Some(i)
  {
    Snoc(es, e);
    LegalFront(es, e);
    hide Assigned, LegalReceipts, Bridge;
    GroupStays(es, e, i, |es|);
    assert es[..|es|] == es;
  }

  lemma LegalFront(es: History, e: Event)
    requires LegalReceipts(es + [e])
    ensures LegalReceipts(es)
  {
    Snoc(es, e);
    hide ReceiptShaped, LegalBridge, Lifecycle.RunShaped;
  }
}
