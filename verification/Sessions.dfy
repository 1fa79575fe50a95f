/** Sessions: the membership book kept in `session_projection` and `session_membership_projection`,
    its rebuild, and the auditor's recomputation and checks of it. */
module Sessions {
  import opened Strings
  import opened Json
  import opened Ledger
  import opened State
  import opened Errors
  import Inbox

  const CREATED := "session_created"
  const ADDED := "session_intent_added"

  // ---------------------------------------------------------------- ids in a payload

  /** `payload["artifact"]["content"]` when it is a dict. */
  function Content(e: Event): Option<map<string, Json>> {
    var a := Sub(Doc(e), "artifact");
    if "content" in a && a["content"].Obj? then Some(a["content"].fields) else None
  }

  /** The id as the rebuild reads it: from the artifact, else from the top level. */
  function IdIn(e: Event, k: string): Option<string> {
    if Content(e).Some? && Name(Content(e).value, k).Some? then Name(Content(e).value, k) else Name(Doc(e), k)
  }

  /** The id as the auditor reads it: from the artifact if there is one. */
  function AuditedId(e: Event, k: string): Option<string> {
    if Content(e).Some? then Name(Content(e).value, k) else Name(Doc(e), k)
  }

  /** The two readers find the same ids. */
  predicate PlainIds(e: Event) {
    e.eventType == CREATED || e.eventType == ADDED ==>
      && IdIn(e, "session_id") == AuditedId(e, "session_id")
      && IdIn(e, "intent_id") == AuditedId(e, "intent_id")
  }

  /** The rebuild and the auditor read an id differently if and only if the artifact's content does not name it and the
      top level does: the auditor stops at the content, the rebuild falls back. */
  lemma ReadersDiffer(e: Event, k: string)
    ensures IdIn(e, k) != AuditedId(e, k) <==>
      var a := Sub(Doc(e), "artifact");
      "content" in a && a["content"].Obj? && Name(a["content"].fields, k).None? && Name(Doc(e), k).Some?
  {
    hide Doc;
  }

  // ---------------------------------------------------------------- the two folds

  /** Both session tables. */
  datatype Book = Book(sessions: SessionTable, members: MemberTable)

  const BLANK := Book(map[], map[])

  function Join(b: Book, s: string, i: string, e: Event): Book {
    if s !in b.sessions || (s, i) in b.members then b
    else
      var n := b.sessions[s].intentCount + 1;
      Book(b.sessions[s := SessionRow(n, b.sessions[s].createdAt, e.id)],
           b.members[(s, i) := MemberRow(n, e.createdAt, e.id)])
  }

  function Open(b: Book, s: string, e: Event): Book {
    b.(sessions := b.sessions[s := SessionRow(0, e.createdAt, e.id)])
  }

  function Touch(b: Book, s: string, e: Event): Book
    requires s in b.sessions
  {
    b.(sessions := b.sessions[s := b.sessions[s].(lastEventId := e.id)])
  }

  /** On a repeated creation the rebuild keeps the row but names the later event as its last. */
  function BookStep(b: Book, e: Event): Book {
    var s, i := IdIn(e, "session_id"), IdIn(e, "intent_id");
    if s.None? then b
    else if e.eventType == CREATED then
      if s.value in b.sessions then Touch(b, s.value, e) else Open(b, s.value, e)
    else if e.eventType == ADDED && i.Some? then Join(b, s.value, i.value, e)
    else b
  }

  /** What `rebuild_session_projection` computes from a history. */
  function Books(es: History): Book {
    if es == [] then BLANK else BookStep(Books(es[..|es|-1]), es[|es|-1])
  }

  /** The auditor ignores a repeated creation. */
  function ExpectedStep(b: Book, e: Event): Book {
    var s, i := AuditedId(e, "session_id"), AuditedId(e, "intent_id");
    if s.None? then b
    else if e.eventType == CREATED then (if s.value in b.sessions then b else Open(b, s.value, e))
    else if e.eventType == ADDED && i.Some? then Join(b, s.value, i.value, e)
    else b
  }

  /** What `compute_expected_session_projection` computes from a history. */
  function ExpectedBook(es: History): Book {
    if es == [] then BLANK else ExpectedStep(ExpectedBook(es[..|es|-1]), es[|es|-1])
  }

  // ---------------------------------------------------------------- where they differ

  /** The sessions whose latest event is a repeated creation. */
  function Stale(es: History): set<string> {
    if es == [] then {}
    else
      var front, e := es[..|es|-1], es[|es|-1];
      var s, i := IdIn(e, "session_id"), IdIn(e, "intent_id");
      if s.None? || s.value !in Books(front).sessions then Stale(front)
      else if e.eventType == CREATED then Stale(front) + {s.value}
      else if e.eventType == ADDED && i.Some? && (s.value, i.value) !in Books(front).members then Stale(front) - {s.value}
      else Stale(front)
  }

  ghost predicate AllPlain(es: History) {
    forall k :: 0 <= k < |es| ==> PlainIds(es[k])
  }

  /** Every expected row's last event is in the history. */
  ghost predicate Sourced(b: Book, es: History) {
    forall s :: s in b.sessions ==> IdOf(es, b.sessions[s].lastEventId)
  }

  lemma {:induction false} ExpectedSourced(es: History)
    ensures Sourced(ExpectedBook(es), es)
  {
    if es != [] {
      var front, e := es[..|es|-1], es[|es|-1];
      ExpectedSourced(front);
      Unsnoc(es);
      assert IdOf(es, e.id);
      forall s | s in ExpectedBook(es).sessions
        ensures IdOf(es, ExpectedBook(es).sessions[s].lastEventId)
      {
        if s in ExpectedBook(front).sessions { IdStays(front, e, ExpectedBook(front).sessions[s].lastEventId); }
      }
    }
  }

  /** The tables agree except that the last event of a stale session differs. */
  ghost predicate DifferAt(b: Book, x: Book, stale: set<string>) {
    && b.members == x.members && b.sessions.Keys == x.sessions.Keys && stale <= x.sessions.Keys
    && forall s :: s in x.sessions ==>
         && b.sessions[s].intentCount == x.sessions[s].intentCount
         && b.sessions[s].createdAt == x.sessions[s].createdAt
         && (b.sessions[s].lastEventId == x.sessions[s].lastEventId <==> s !in stale)
  }

  lemma DifferStep(es: History, e: Event)
    requires PlainIds(e) && DifferAt(Books(es), ExpectedBook(es), Stale(es)) && Sourced(ExpectedBook(es), es)
    requires !IdOf(es, e.id)
    ensures DifferAt(Books(es + [e]), ExpectedBook(es + [e]), Stale(es + [e]))
  {
    hide IdIn, AuditedId, IdOf, Sourced;
    Snoc(es, e);
    var s := IdIn(e, "session_id");
    if s.Some? && s.value in Books(es).sessions { OtherSource(es, e, s.value); }
  }

  lemma OtherSource(es: History, e: Event, s: string)
    requires Sourced(ExpectedBook(es), es) && !IdOf(es, e.id) && s in ExpectedBook(es).sessions
    ensures ExpectedBook(es).sessions[s].lastEventId != e.id
  {
  }

  /** With distinct event ids, rebuild and auditor disagree exactly on the last event of the
      sessions whose latest event is a repeated creation. */
  lemma {:induction false} RebuildDiffersAtStale(es: History)
    requires AllPlain(es) && DistinctIds(es)
    ensures DifferAt(Books(es), ExpectedBook(es), Stale(es))
  {
    if es != [] {
      var front, e := es[..|es|-1], es[|es|-1];
      RebuildDiffersAtStale(front);
      ExpectedSourced(front);
      assert PlainIds(e) && !IdOf(front, e.id);
      DifferStep(front, e);
      Unsnoc(es);
    }
  }

  lemma RebuildIsExpected(es: History)
    requires AllPlain(es) && DistinctIds(es)
    ensures Books(es) == ExpectedBook(es) <==> Stale(es) == {}
  {
    RebuildDiffersAtStale(es);
    if Stale(es) == {} {
      assert forall s :: s in Books(es).sessions ==> Books(es).sessions[s] == ExpectedBook(es).sessions[s];
    } else {
      var s :| s in Stale(es);
      assert Books(es).sessions[s] != ExpectedBook(es).sessions[s];
    }
  }

  function Creation(id: string, s: string): Event {
    Event(id, None, "", CREATED, "kernel", Parsed(Obj(map["session_id" := Str(s)]), ""), None, "", "")
  }

  lemma CreationIds(id: string, s: string)
    requires s != ""
    ensures var e := Creation(id, s); IdIn(e, "session_id") == Some(s) == AuditedId(e, "session_id")
  {
    var e := Creation(id, s);
    assert Content(e).None? && Doc(e)["session_id"] == Str(s);
  }

  /** Two creations of one session: the rebuilt row and the expected row name different events. */
  lemma RepeatedCreationDiffers()
    ensures var es := [Creation("1", "s"), Creation("2", "s")];
      Books(es).sessions == map["s" := SessionRow(0, "", "2")] && ExpectedBook(es).sessions == map["s" := SessionRow(0, "", "1")]
  {
    var a, b := Creation("1", "s"), Creation("2", "s");
    CreationIds("1", "s");
    CreationIds("2", "s");
    hide IdIn, AuditedId;
    assert [a][..0] == [] && [a, b][..1] == [a];
    assert Books([]) == BLANK && ExpectedBook([]) == BLANK;
    assert Books([a]) == BookStep(BLANK, a) && ExpectedBook([a]) == ExpectedStep(BLANK, a);
    assert Books([a]) == Open(BLANK, "s", a) && ExpectedBook([a]) == Open(BLANK, "s", a);
  }

  // ---------------------------------------------------------------- rebuild

  datatype Item = Item(intentId: string, row: MemberRow)

  /** The dicts the rebuild collects: creation times, last events, and one list of members each. */
  datatype Notes = Notes(
    createdAt: map<string, string>, last: map<string, string>, items: map<string, seq<Item>>,
    seen: set<(string, string)>)

  /** Every listed member has its position as its order. */
  ghost predicate Placed(t: MemberTable, s: string, items: seq<Item>) {
    forall j :: 0 <= j < |items| ==>
      (s, items[j].intentId) in t && t[(s, items[j].intentId)] == items[j].row && items[j].row.order == j + 1
  }

  /** Every member is listed at its order. */
  ghost predicate Covered(t: MemberTable, s: string, items: seq<Item>) {
    forall i :: (s, i) in t ==> 0 < t[(s, i)].order <= |items| && items[t[(s, i)].order - 1].intentId == i
  }

  ghost predicate Listed(t: MemberTable, s: string, items: seq<Item>) {
    Placed(t, s, items) && Covered(t, s, items)
  }

  ghost predicate Noted(b: Book, n: Notes) {
    && n.createdAt.Keys == n.last.Keys == n.items.Keys == b.sessions.Keys && n.seen == b.members.Keys
    && (forall k :: k in b.members ==> k.0 in b.sessions)
    && forall s :: s in b.sessions ==>
         b.sessions[s] == SessionRow(|n.items[s]|, n.createdAt[s], n.last[s]) && Listed(b.members, s, n.items[s])
  }

  /** One row of the rebuild loop. */
  function Note(n: Notes, e: Event): Notes {
    var s, i := IdIn(e, "session_id"), IdIn(e, "intent_id");
    if s.None? then n
    else if e.eventType == CREATED then
      Notes(if s.value in n.createdAt then n.createdAt else n.createdAt[s.value := e.createdAt],
            n.last[s.value := e.id],
            if s.value in n.items then n.items else n.items[s.value := []], n.seen)
    else if e.eventType != ADDED || i.None? || s.value !in n.createdAt || (s.value, i.value) in n.seen then n
    else
      var items := if s.value in n.items then n.items[s.value] else [];
      Notes(n.createdAt, n.last[s.value := e.id],
            n.items[s.value := items + [Item(i.value, MemberRow(|items| + 1, e.createdAt, e.id))]],
            n.seen + {(s.value, i.value)})
  }

  lemma NoteAgain(b: Book, n: Notes, s: string, e: Event)
    requires Noted(b, n) && s in b.sessions
    ensures Noted(Touch(b, s, e), n.(last := n.last[s := e.id]))
  {
  }

  lemma NoteOpened(b: Book, n: Notes, s: string, e: Event)
    requires Noted(b, n) && s !in b.sessions
    ensures Noted(Open(b, s, e),
      Notes(n.createdAt[s := e.createdAt], n.last[s := e.id], n.items[s := []], n.seen))
  {
    assert forall i :: (s, i) !in b.members;
    assert Listed(b.members, s, []);
  }

  lemma PlacedNew(t: MemberTable, s: string, items: seq<Item>, i: string, row: MemberRow)
    requires Placed(t, s, items) && (s, i) !in t && row.order == |items| + 1
    ensures Placed(t[(s, i) := row], s, items + [Item(i, row)])
  {
  }

  lemma CoveredNew(t: MemberTable, s: string, items: seq<Item>, i: string, row: MemberRow)
    requires Covered(t, s, items) && (s, i) !in t && row.order == |items| + 1
    ensures Covered(t[(s, i) := row], s, items + [Item(i, row)])
  {
    var u, more := t[(s, i) := row], items + [Item(i, row)];
    forall k | (s, k) in u
      ensures 0 < u[(s, k)].order <= |more| && more[u[(s, k)].order - 1].intentId == k
    {
      if k != i { assert (s, k) in t && u[(s, k)] == t[(s, k)]; }
    }
  }

  lemma ListedNew(t: MemberTable, s: string, items: seq<Item>, i: string, row: MemberRow)
    requires Listed(t, s, items) && (s, i) !in t && row.order == |items| + 1
    ensures Listed(t[(s, i) := row], s, items + [Item(i, row)])
  {
    hide Placed, Covered;
    PlacedNew(t, s, items, i, row);
    CoveredNew(t, s, items, i, row);
  }

  lemma CoveredOther(t: MemberTable, s: string, other: string, items: seq<Item>, i: string, row: MemberRow)
    requires Covered(t, other, items) && other != s
    ensures Covered(t[(s, i) := row], other, items)
  {
    forall k | (other, k) in t[(s, i) := row] ensures (other, k) in t && t[(s, i) := row][(other, k)] == t[(other, k)] { }
  }

  lemma PlacedOther(t: MemberTable, s: string, other: string, items: seq<Item>, i: string, row: MemberRow)
    requires Placed(t, other, items) && other != s
    ensures Placed(t[(s, i) := row], other, items)
  {
  }

  lemma ListedOther(t: MemberTable, s: string, other: string, items: seq<Item>, i: string, row: MemberRow)
    requires Listed(t, other, items) && other != s
    ensures Listed(t[(s, i) := row], other, items)
  {
    hide Placed, Covered;
    PlacedOther(t, s, other, items, i, row);
    CoveredOther(t, s, other, items, i, row);
  }

  lemma NoteAdded(b: Book, n: Notes, s: string, i: string, e: Event)
    requires Noted(b, n) && s in b.sessions && (s, i) !in b.members
    ensures Noted(Join(b, s, i, e),
      Notes(n.createdAt, n.last[s := e.id],
            n.items[s := n.items[s] + [Item(i, MemberRow(|n.items[s]| + 1, e.createdAt, e.id))]], n.seen + {(s, i)}))
  {
    hide Listed;
    var c, row := Join(b, s, i, e), MemberRow(|n.items[s]| + 1, e.createdAt, e.id);
    ListedNew(b.members, s, n.items[s], i, row);
    forall t | t in b.sessions && t != s ensures Listed(c.members, t, n.items[t]) {
      ListedOther(b.members, s, t, n.items[t], i, row);
    }
  }

  lemma NoteStep(b: Book, n: Notes, e: Event)
    requires Noted(b, n)
    ensures Noted(BookStep(b, e), Note(n, e))
  {
    hide IdIn, Noted, Listed, Join;
    var s, i := IdIn(e, "session_id"), IdIn(e, "intent_id");
    NotedKeys(b, n);
    if s.Some? {
      if e.eventType == CREATED {
        if s.value in b.sessions { NoteAgain(b, n, s.value, e); } else { NoteOpened(b, n, s.value, e); }
      } else if e.eventType == ADDED && i.Some? {
        if s.value in b.sessions && (s.value, i.value) !in b.members {
          NoteAdded(b, n, s.value, i.value, e);
        } else {
          JoinRefused(b, s.value, i.value, e);
        }
      }
    }
  }

  lemma JoinRefused(b: Book, s: string, i: string, e: Event)
    requires s !in b.sessions || (s, i) in b.members
    ensures Join(b, s, i, e) == b
  {
  }

  lemma NotedKeys(b: Book, n: Notes)
    requires Noted(b, n)
    ensures n.createdAt.Keys == n.items.Keys == b.sessions.Keys && n.seen == b.members.Keys
  {
  }

  /** `rebuild_session_projection`. */
  method RebuildSessions(db: Database)
    modifies db`sessions, db`members
    ensures Book(db.sessions, db.members) == Books(db.events)
  {
    hide *;
    var notes := CollectNotes(db.events);
    var sessions, members := Fill(Books(db.events), notes);
    db.sessions, db.members := sessions, members;
  }

  method CollectNotes(es: History) returns (n: Notes)
    ensures Noted(Books(es), n)
  {
    hide IdIn, Noted, BookStep;
    var createdAt: map<string, string> := map[];
    var last: map<string, string> := map[];
    var items: map<string, seq<Item>> := map[];
    var seen: set<(string, string)> := {};
    NothingNoted();
    for k := 0 to |es|
      invariant Noted(Books(es[..k]), Notes(createdAt, last, items, seen))
    {
      var e := es[k];
      Upto(es, k);
      NoteStep(Books(es[..k]), Notes(createdAt, last, items, seen), e);
      var s, i := IdIn(e, "session_id"), IdIn(e, "intent_id");
      if s.Some? {
        if e.eventType == CREATED {
          if s.value !in createdAt { createdAt := createdAt[s.value := e.createdAt]; }
          last := last[s.value := e.id];
          if s.value !in items { items := items[s.value := []]; }
        } else if e.eventType == ADDED && i.Some? && s.value in createdAt && (s.value, i.value) !in seen {
          seen := seen + {(s.value, i.value)};
          var mine := if s.value in items then items[s.value] else [];
          items := items[s.value := mine + [Item(i.value, MemberRow(|mine| + 1, e.createdAt, e.id))]];
          last := last[s.value := e.id];
        }
      }
    }
    assert es[..|es|] == es;
    n := Notes(createdAt, last, items, seen);
  }

  lemma NothingNoted()
    ensures Noted(Books([]), Notes(map[], map[], map[], {}))
  {
  }

  /** The members of the first sessions, and the first `j` members of session `s`. */
  ghost predicate Filled(t: MemberTable, b: Book, done: set<string>, s: string, j: int) {
    && (forall x, i :: (x, i) in t <==> (x, i) in b.members && (x in done || (x == s && 0 < b.members[(x, i)].order <= j)))
    && forall x, i :: (x, i) in t ==> t[(x, i)] == b.members[(x, i)]
  }

  /** The insert loops: one row per session, one row per listed member. */
  method Fill(ghost b: Book, n: Notes) returns (sessions: SessionTable, members: MemberTable)
    requires Noted(b, n)
    ensures Book(sessions, members) == b
  {
    hide Listed, Filled, Noted, First, SessionsFilled;
    NotedKeys(b, n);
    var keys := SortedKeys(n.createdAt.Keys);
    sessions, members := map[], map[];
    ghost var done: set<string> := {};
    FilledNone(b, keys);
    for k := 0 to |keys|
      invariant First(done, keys, k) && SessionsFilled(sessions, b, done) && Filled(members, b, done, "", 0)
    {
      var s := keys[k];
      FirstStep(done, keys, k);
      NotedRow(b, n, s);
      SessionsFilledStep(sessions, b, done, s);
      sessions := sessions[s := SessionRow(|n.items[s]|, n.createdAt[s], n.last[s])];
      members := FillSession(b, members, done, s, n.items[s]);
      done := done + {s};
    }
    FirstAll(done, keys);
    SessionsFilledAll(sessions, b, done);
    MembersKnown(b, n);
    FilledAll(members, b, done);
  }

  /** The set of the first `k` keys. */
  ghost predicate First(done: set<string>, keys: seq<string>, k: nat)
    requires k <= |keys|
  {
    forall s :: s in done <==> s in keys[..k]
  }

  lemma FirstStep(done: set<string>, keys: seq<string>, k: nat)
    requires k < |keys| && First(done, keys, k) && Sorted(keys)
    ensures keys[k] !in done && First(done + {keys[k]}, keys, k + 1)
  {
    assert keys[..k+1] == keys[..k] + [keys[k]];
    SortedDistinct(keys, k);
  }

  lemma FirstAll(done: set<string>, keys: seq<string>)
    requires First(done, keys, |keys|)
    ensures forall s :: s in done <==> s in keys
  {
    assert keys[..|keys|] == keys;
  }

  ghost predicate SessionsFilled(t: SessionTable, b: Book, done: set<string>) {
    t.Keys == done && forall s :: s in done ==> s in b.sessions && t[s] == b.sessions[s]
  }

  lemma SessionsFilledStep(t: SessionTable, b: Book, done: set<string>, s: string)
    requires SessionsFilled(t, b, done) && s in b.sessions
    ensures SessionsFilled(t[s := b.sessions[s]], b, done + {s})
  {
  }

  lemma SessionsFilledAll(t: SessionTable, b: Book, done: set<string>)
    requires SessionsFilled(t, b, done) && forall s :: s in b.sessions ==> s in done
    ensures t == b.sessions
  {
  }

  lemma NotedRow(b: Book, n: Notes, s: string)
    requires Noted(b, n) && s in b.sessions
    ensures n.last.Keys == n.items.Keys == b.sessions.Keys
    ensures b.sessions[s] == SessionRow(|n.items[s]|, n.createdAt[s], n.last[s]) && Listed(b.members, s, n.items[s])
  {
  }

  lemma MembersKnown(b: Book, n: Notes)
    requires Noted(b, n)
    ensures forall x, i :: (x, i) in b.members ==> x in b.sessions
  {
  }

  lemma FilledNone(b: Book, keys: seq<string>)
    ensures Filled(map[], b, {}, "", 0) && First({}, keys, 0) && SessionsFilled(map[], b, {})
  {
  }

  method FillSession(ghost b: Book, t: MemberTable, ghost done: set<string>, s: string, items: seq<Item>)
    returns (members: MemberTable)
    requires Listed(b.members, s, items) && s !in done && Filled(t, b, done, "", 0)
    ensures Filled(members, b, done + {s}, "", 0)
  {
    hide *;
    members := t;
    FilledStart(t, b, done, s);
    for j := 0 to |items|
      invariant Filled(members, b, done, s, j)
    {
      FilledStep(members, b, done, s, items, j);
      members := members[(s, items[j].intentId) := items[j].row];
    }
    FilledEnd(members, b, done, s, items);
  }

  lemma FilledStart(t: MemberTable, b: Book, done: set<string>, s: string)
    requires Filled(t, b, done, "", 0)
    ensures Filled(t, b, done, s, 0)
  {
  }

  lemma FilledStep(t: MemberTable, b: Book, done: set<string>, s: string, items: seq<Item>, j: nat)
    requires Listed(b.members, s, items) && j < |items| && Filled(t, b, done, s, j)
    ensures Filled(t[(s, items[j].intentId) := items[j].row], b, done, s, j + 1)
  {
    var u := t[(s, items[j].intentId) := items[j].row];
    forall x, i
      ensures (x, i) in u <==> (x, i) in b.members && (x in done || (x == s && 0 < b.members[(x, i)].order <= j + 1))
    {
    }
  }

  lemma FilledEnd(t: MemberTable, b: Book, done: set<string>, s: string, items: seq<Item>)
    requires Listed(b.members, s, items) && Filled(t, b, done, s, |items|)
    ensures Filled(t, b, done + {s}, "", 0)
  {
  }

  lemma FilledAll(t: MemberTable, b: Book, done: set<string>)
    requires Filled(t, b, done, "", 0) && forall x, i :: (x, i) in b.members ==> x in done
    ensures t == b.members
  {
    forall k | k in t ensures k in b.members && t[k] == b.members[k] { assert k == (k.0, k.1); }
    forall k | k in b.members ensures k in t { assert k == (k.0, k.1); }
  }

  // ---------------------------------------------------------------- the auditor

  /** `compute_expected_session_projection`. */
  method ComputeExpectedSessions(es: History) returns (b: Book)
    ensures b == ExpectedBook(es)
  {
    hide AuditedId;
    var sessions: SessionTable := map[];
    var members: MemberTable := map[];
    var counts: map<string, nat> := map[];
    var seen: set<(string, string)> := {};
    for k := 0 to |es|
      invariant Book(sessions, members) == ExpectedBook(es[..k]) && seen == members.Keys
      invariant counts.Keys == sessions.Keys && forall s :: s in counts ==> counts[s] == sessions[s].intentCount
    {
      var e := es[k];
      Upto(es, k);
      var s, i := AuditedId(e, "session_id"), AuditedId(e, "intent_id");
      if s.Some? && e.eventType == CREATED {
        if s.value !in sessions {
          sessions := sessions[s.value := SessionRow(0, e.createdAt, e.id)];
          counts := counts[s.value := 0];
        }
      } else if s.Some? && e.eventType == ADDED && i.Some? && s.value in sessions && (s.value, i.value) !in seen {
        seen := seen + {(s.value, i.value)};
        var order := counts[s.value] + 1;
        counts := counts[s.value := order];
        members := members[(s.value, i.value) := MemberRow(order, e.createdAt, e.id)];
        sessions := sessions[s.value := SessionRow(order, sessions[s.value].createdAt, e.id)];
      }
    }
    assert es[..|es|] == es;
    b := Book(sessions, members);
  }

  function Owners(ks: set<(string, string)>): set<string> {
    set k | k in ks :: k.0
  }

  function Intents(ks: set<(string, string)>, s: string): set<string> {
    set k | k in ks && k.0 == s :: k.1
  }

  /** The pairs in Python's tuple order, one error list each. */
  function CollectPairs(ks: set<(string, string)>, of: (string, string) -> ErrorList): ErrorList {
    Collect(SortedKeys(Owners(ks)), PairsOf(ks, of))
  }

  function PairsOf(ks: set<(string, string)>, of: (string, string) -> ErrorList): string -> ErrorList {
    (s: string) => Collect(SortedKeys(Intents(ks, s)), (i: string) => of(s, i))
  }

  lemma CollectPairsEmpty(ks: set<(string, string)>, of: (string, string) -> ErrorList)
    ensures CollectPairs(ks, of) == [] <==> forall s, i :: (s, i) in ks ==> of(s, i) == []
  {
    hide Collect;
    CollectEmpty(SortedKeys(Owners(ks)), PairsOf(ks, of));
    forall s ensures PairsOf(ks, of)(s) == [] <==> forall i :: (s, i) in ks ==> of(s, i) == [] {
      CollectEmpty(SortedKeys(Intents(ks, s)), (i: string) => of(s, i));
      forall i ensures i in Intents(ks, s) <==> (s, i) in ks {
        if (s, i) in ks { assert (s, i).0 == s; }
      }
    }
    forall s, i | (s, i) in ks ensures s in Owners(ks) { assert (s, i).0 == s; }
  }

  function SessionRowErrors(actual: SessionTable, expected: SessionTable): string -> ErrorList {
    (s: string) =>
      When(s in expected && (s !in actual || actual[s] != expected[s]), "SESSION_PROJECTION_MISMATCH", s)
  }

  function MemberErrors(actual: MemberTable, expected: MemberTable): (string, string) -> ErrorList {
    (s: string, i: string) =>
      When((s, i) in expected && ((s, i) !in actual || actual[(s, i)] != expected[(s, i)]),
           "SESSION_MEMBERSHIP_PROJECTION_MISMATCH", s + ":" + i)
  }

  const UnexpectedMember: (string, string) -> ErrorList :=
    (s: string, i: string) => [AuditError("SESSION_MEMBERSHIP_PROJECTION_UNEXPECTED_ENTRY", s + ":" + i)]

  function ProjectionErrors(actual: Book, expected: Book): ErrorList {
    Collect(SortedKeys(expected.sessions.Keys), SessionRowErrors(actual.sessions, expected.sessions)) +
    Collect(SortedKeys(actual.sessions.Keys - expected.sessions.Keys), Unexpected("SESSION_PROJECTION_UNEXPECTED_ENTRY")) +
    CollectPairs(expected.members.Keys, MemberErrors(actual.members, expected.members)) +
    CollectPairs(actual.members.Keys - expected.members.Keys, UnexpectedMember)
  }

  method ReportPairs(ks: set<(string, string)>, of: (string, string) -> ErrorList) returns (errors: ErrorList)
    ensures errors == CollectPairs(ks, of)
  {
    errors := Report(SortedKeys(Owners(ks)), PairsOf(ks, of));
  }

  /** `check_session_projection`. */
  method CheckSessionProjection(actual: Book, es: History) returns (errors: ErrorList)
    ensures errors == ProjectionErrors(actual, ExpectedBook(es))
  {
    hide CollectPairs, Collect, ExpectedBook;
    var expected := ComputeExpectedSessions(es);
    var rows := Report(SortedKeys(expected.sessions.Keys), SessionRowErrors(actual.sessions, expected.sessions));
    var extra := Report(SortedKeys(actual.sessions.Keys - expected.sessions.Keys), Unexpected("SESSION_PROJECTION_UNEXPECTED_ENTRY"));
    var members := ReportPairs(expected.members.Keys, MemberErrors(actual.members, expected.members));
    var strangers := ReportPairs(actual.members.Keys - expected.members.Keys, UnexpectedMember);
    errors := rows + extra + members + strangers;
  }

  lemma SessionRowsSame(actual: SessionTable, expected: SessionTable)
    ensures Collect(SortedKeys(expected.Keys), SessionRowErrors(actual, expected)) == []
       <==> forall s :: s in expected ==> s in actual && actual[s] == expected[s]
  {
    var of := SessionRowErrors(actual, expected);
    CollectEmpty(SortedKeys(expected.Keys), of);
    forall s | s in expected ensures of(s) == [] <==> s in actual && actual[s] == expected[s] { }
  }

  lemma SessionRowsEmpty(actual: SessionTable, expected: SessionTable)
    ensures Collect(SortedKeys(expected.Keys), SessionRowErrors(actual, expected)) +
            Collect(SortedKeys(actual.Keys - expected.Keys), Unexpected("SESSION_PROJECTION_UNEXPECTED_ENTRY")) == []
       <==> actual == expected
  {
    hide Collect, Unexpected, SessionRowErrors;
    SessionRowsSame(actual, expected);
    UnexpectedEmpty(actual.Keys - expected.Keys, "SESSION_PROJECTION_UNEXPECTED_ENTRY");
    if actual.Keys - expected.Keys == {} && forall s :: s in expected ==> s in actual && actual[s] == expected[s] {
      assert forall s :: s in actual ==> s in actual.Keys - expected.Keys || s in expected;
      assert actual == expected;
    }
  }

  lemma MemberRowsEmpty(actual: MemberTable, expected: MemberTable)
    ensures CollectPairs(expected.Keys, MemberErrors(actual, expected)) +
            CollectPairs(actual.Keys - expected.Keys, UnexpectedMember) == []
       <==> actual == expected
  {
    hide CollectPairs;
    var of := MemberErrors(actual, expected);
    CollectPairsEmpty(expected.Keys, of);
    CollectPairsEmpty(actual.Keys - expected.Keys, UnexpectedMember);
    forall s, i | (s, i) in expected
      ensures of(s, i) == [] <==> (s, i) in actual && actual[(s, i)] == expected[(s, i)]
    {
    }
    MembersEqual(actual, expected);
  }

  lemma MembersEqual(actual: MemberTable, expected: MemberTable)
    ensures actual == expected <==>
      && (forall s, i :: (s, i) !in actual.Keys - expected.Keys)
      && forall s, i :: (s, i) in expected ==> (s, i) in actual && actual[(s, i)] == expected[(s, i)]
  {
    if (forall s, i :: (s, i) !in actual.Keys - expected.Keys)
       && forall s, i :: (s, i) in expected ==> (s, i) in actual && actual[(s, i)] == expected[(s, i)] {
      forall k | k in actual ensures k in expected { assert k == (k.0, k.1) && (k.0, k.1) !in actual.Keys - expected.Keys; }
      forall k | k in expected ensures k in actual && actual[k] == expected[k] { assert k == (k.0, k.1); }
    }
  }

  /** The comparison is exact: no error if and only if both tables are the expected ones. */
  lemma SessionErrorsEmpty(actual: Book, expected: Book)
    ensures ProjectionErrors(actual, expected) == [] <==> actual == expected
  {
    hide Collect, CollectPairs;
    SessionRowsEmpty(actual.sessions, expected.sessions);
    MemberRowsEmpty(actual.members, expected.members);
  }

  /** What the comparison has to say of a session, and of a member. */
  predicate SessionWrong(actual: SessionTable, expected: SessionTable, s: string, code: string) {
    || (code == "SESSION_PROJECTION_MISMATCH" && s in expected && !(s in actual && actual[s] == expected[s]))
    || (code == "SESSION_PROJECTION_UNEXPECTED_ENTRY" && s in actual && s !in expected)
  }

  predicate MemberWrong(actual: MemberTable, expected: MemberTable, s: string, i: string, code: string) {
    || (code == "SESSION_MEMBERSHIP_PROJECTION_MISMATCH" && (s, i) in expected && !((s, i) in actual && actual[(s, i)] == expected[(s, i)]))
    || (code == "SESSION_MEMBERSHIP_PROJECTION_UNEXPECTED_ENTRY" && (s, i) in actual && (s, i) !in expected)
  }

  lemma PairsFind(ks: set<(string, string)>, of: (string, string) -> ErrorList, x: AuditError)
    ensures x in CollectPairs(ks, of) <==> exists s, i :: (s, i) in ks && x in of(s, i)
  {
    hide Collect;
    CollectFinds(SortedKeys(Owners(ks)), PairsOf(ks, of), x);
    forall s ensures x in PairsOf(ks, of)(s) <==> exists i :: (s, i) in ks && x in of(s, i) {
      CollectFinds(SortedKeys(Intents(ks, s)), (i: string) => of(s, i), x);
      forall i ensures i in Intents(ks, s) <==> (s, i) in ks {
        if (s, i) in ks { assert (s, i).0 == s; }
      }
    }
    forall s, i | (s, i) in ks ensures s in Owners(ks) { assert (s, i).0 == s; }
  }

  lemma SessionRowFinds(actual: SessionTable, expected: SessionTable, x: AuditError)
    ensures x in Collect(SortedKeys(expected.Keys), SessionRowErrors(actual, expected)) +
                 Collect(SortedKeys(actual.Keys - expected.Keys), Unexpected("SESSION_PROJECTION_UNEXPECTED_ENTRY"))
       <==> SessionWrong(actual, expected, x.id, x.code)
  {
    forall s ensures x in SessionRowErrors(actual, expected)(s) <==>
      x.id == s && x.code == "SESSION_PROJECTION_MISMATCH" && s in expected && !(s in actual && actual[s] == expected[s])
    {
    }
    hide SessionRowErrors, Collect, Unexpected;
    ReportFinds(SortedKeys(expected.Keys), SessionRowErrors(actual, expected), x);
    UnexpectedFinds(actual.Keys - expected.Keys, "SESSION_PROJECTION_UNEXPECTED_ENTRY", x);
  }

  lemma MemberRowFinds(actual: MemberTable, expected: MemberTable, x: AuditError)
    ensures x in CollectPairs(expected.Keys, MemberErrors(actual, expected)) + CollectPairs(actual.Keys - expected.Keys, UnexpectedMember)
       <==> exists s, i :: MemberWrong(actual, expected, s, i, x.code) && x.id == s + ":" + i
  {
    PairsFind(expected.Keys, MemberErrors(actual, expected), x);
    PairsFind(actual.Keys - expected.Keys, UnexpectedMember, x);
    forall s, i ensures x in MemberErrors(actual, expected)(s, i) <==>
      && x.id == s + ":" + i && x.code == "SESSION_MEMBERSHIP_PROJECTION_MISMATCH"
      && (s, i) in expected && !((s, i) in actual && actual[(s, i)] == expected[(s, i)])
    {
    }
    forall s, i ensures x in UnexpectedMember(s, i) <==>
      x.id == s + ":" + i && x.code == "SESSION_MEMBERSHIP_PROJECTION_UNEXPECTED_ENTRY"
    {
    }
    hide MemberErrors, CollectPairs;
  }

  /** It reports exactly that. */
  lemma SessionErrorsFind(actual: Book, expected: Book, x: AuditError)
    ensures x in ProjectionErrors(actual, expected) <==>
      || SessionWrong(actual.sessions, expected.sessions, x.id, x.code)
      || exists s, i :: MemberWrong(actual.members, expected.members, s, i, x.code) && x.id == s + ":" + i
  {
    SessionRowFinds(actual.sessions, expected.sessions, x);
    MemberRowFinds(actual.members, expected.members, x);
    hide Collect, CollectPairs, SessionWrong, MemberWrong;
  }

  /** On a history with distinct ids and payloads both readers read alike, rebuilding satisfies the
      auditor exactly when no session's latest event is a repeated creation. */
  lemma RebuildPassesAudit(es: History)
    requires AllPlain(es) && DistinctIds(es)
    ensures ProjectionErrors(Books(es), ExpectedBook(es)) == [] <==> Stale(es) == {}
  {
    SessionErrorsEmpty(Books(es), ExpectedBook(es));
    RebuildIsExpected(es);
  }

  // ---------------------------------------------------------------- order

  /** A session's orders are exactly 1..n, one intent each, where n is its stored count. */
  ghost predicate Ranked(b: Book, s: string) {
    s in b.sessions ==>
      && |Intents(b.members.Keys, s)| == b.sessions[s].intentCount
      && (forall i :: (s, i) in b.members ==> 1 <= b.members[(s, i)].order <= b.sessions[s].intentCount)
      && (forall n :: 1 <= n <= b.sessions[s].intentCount ==> HasRank(b.members, s, n))
      && forall i, j :: (s, i) in b.members && (s, j) in b.members && i != j
           ==> b.members[(s, i)].order != b.members[(s, j)].order
  }

  ghost predicate HasRank(t: MemberTable, s: string, n: nat) {
    exists i :: (s, i) in t && t[(s, i)].order == n
  }

  ghost predicate Ordered(b: Book) {
    && (forall s :: Ranked(b, s))
    && forall s, i :: (s, i) in b.members ==> s in b.sessions
  }

  lemma IntentsJoined(ks: set<(string, string)>, s: string, i: string)
    ensures Intents(ks + {(s, i)}, s) == Intents(ks, s) + {i}
    ensures forall t :: t != s ==> Intents(ks + {(s, i)}, t) == Intents(ks, t)
  {
    forall x ensures x in Intents(ks + {(s, i)}, s) <==> x in Intents(ks, s) + {i} {
      if x == i { assert (s, i).0 == s && (s, i).1 == i; }
    }
  }

  lemma RankStays(t: MemberTable, s: string, n: nat, k: (string, string), row: MemberRow)
    requires HasRank(t, s, n) && k !in t
    ensures HasRank(t[k := row], s, n)
  {
    var i :| (s, i) in t && t[(s, i)].order == n;
    assert (s, i) in t[k := row] && t[k := row][(s, i)].order == n;
  }

  lemma JoinRanked(b: Book, s: string, i: string, e: Event)
    requires Ordered(b) && s in b.sessions && (s, i) !in b.members
    ensures Ranked(Join(b, s, i, e), s)
  {
    hide HasRank, Intents;
    var c, n := Join(b, s, i, e), b.sessions[s].intentCount + 1;
    assert Ranked(b, s);
    IntentsJoined(b.members.Keys, s, i);
    assert c.members.Keys == b.members.Keys + {(s, i)};
    assert i !in Intents(b.members.Keys, s) by { NotAmong(b.members.Keys, s, i); }
    assert HasRank(c.members, s, n) by { NewRank(c.members, s, i); }
    forall k | 1 <= k <= n ensures HasRank(c.members, s, k) {
      if k < n { RankStays(b.members, s, k, (s, i), MemberRow(n, e.createdAt, e.id)); }
    }
  }

  lemma NotAmong(ks: set<(string, string)>, s: string, i: string)
    requires (s, i) !in ks
    ensures i !in Intents(ks, s)
  {
    forall k | k in ks && k.0 == s ensures k.1 != i { assert k == (k.0, k.1); }
  }

  lemma NewRank(t: MemberTable, s: string, i: string)
    requires (s, i) in t
    ensures HasRank(t, s, t[(s, i)].order)
  {
  }

  lemma OthersRanked(b: Book, s: string, i: string, e: Event, t: string)
    requires Ordered(b) && s in b.sessions && (s, i) !in b.members && t != s
    ensures Ranked(Join(b, s, i, e), t)
  {
    hide HasRank, Intents;
    var c, n := Join(b, s, i, e), b.sessions[s].intentCount + 1;
    assert Ranked(b, t);
    IntentsJoined(b.members.Keys, s, i);
    assert c.members.Keys == b.members.Keys + {(s, i)};
    if t in b.sessions {
      forall k | 1 <= k <= b.sessions[t].intentCount ensures HasRank(c.members, t, k) {
        RankStays(b.members, t, k, (s, i), MemberRow(n, e.createdAt, e.id));
      }
    }
  }

  lemma JoinOrdered(b: Book, s: string, i: string, e: Event)
    requires Ordered(b)
    ensures Ordered(Join(b, s, i, e))
  {
    hide Ranked;
    if s in b.sessions && (s, i) !in b.members {
      JoinRanked(b, s, i, e);
      forall t | t != s ensures Ranked(Join(b, s, i, e), t) { OthersRanked(b, s, i, e, t); }
    }
  }

  lemma OpenOrdered(b: Book, s: string, e: Event)
    requires Ordered(b) && s !in b.sessions
    ensures Ordered(Open(b, s, e))
  {
    hide HasRank;
    assert Intents(b.members.Keys, s) == {} by {
      forall k | k in b.members ensures k.0 != s { assert k == (k.0, k.1); }
    }
    forall t ensures Ranked(Open(b, s, e), t) { assert Ranked(b, t); }
  }

  lemma TouchOrdered(b: Book, s: string, e: Event)
    requires Ordered(b) && s in b.sessions
    ensures Ordered(Touch(b, s, e))
  {
    hide HasRank;
    forall t ensures Ranked(Touch(b, s, e), t) { assert Ranked(b, t); }
  }

  lemma BookStepOrdered(b: Book, e: Event)
    requires Ordered(b)
    ensures Ordered(BookStep(b, e)) && Ordered(ExpectedStep(b, e))
  {
    hide IdIn, AuditedId, Ordered, Join;
    var s, i := IdIn(e, "session_id"), IdIn(e, "intent_id");
    if s.Some? {
      if s.value in b.sessions { TouchOrdered(b, s.value, e); } else { OpenOrdered(b, s.value, e); }
      if i.Some? { JoinOrdered(b, s.value, i.value, e); }
    }
    var x, y := AuditedId(e, "session_id"), AuditedId(e, "intent_id");
    if x.Some? {
      if x.value !in b.sessions { OpenOrdered(b, x.value, e); }
      if y.Some? { JoinOrdered(b, x.value, y.value, e); }
    }
  }

  /** On every history, both recomputed books number the members of each session 1..n. */
  lemma {:induction false} BooksOrdered(es: History)
    ensures Ordered(Books(es)) && Ordered(ExpectedBook(es))
  {
    hide Ordered, BookStep, ExpectedStep;
    if es == [] {
      BlankOrdered();
    } else {
      BooksOrdered(es[..|es|-1]);
      BookStepOrdered(Books(es[..|es|-1]), es[|es|-1]);
      BookStepOrdered(ExpectedBook(es[..|es|-1]), es[|es|-1]);
    }
  }

  lemma BlankOrdered()
    ensures Ordered(BLANK)
  {
  }

  // ---------------------------------------------------------------- check_session_history

  function Opened(es: History): set<string> {
    if es == [] then {}
    else
      var e := es[|es|-1];
      Opened(es[..|es|-1]) +
      if e.eventType == CREATED && AuditedId(e, "session_id").Some? then {AuditedId(e, "session_id").value} else {}
  }

  /** The session and intent of an event that adds a member. */
  function Pair(e: Event): Option<(string, string)> {
    if e.eventType == ADDED && AuditedId(e, "session_id").Some? && AuditedId(e, "intent_id").Some?
    then Some((AuditedId(e, "session_id").value, AuditedId(e, "intent_id").value)) else None
  }

  function Joined(es: History): set<(string, string)> {
    if es == [] then {}
    else Joined(es[..|es|-1]) + if Pair(es[|es|-1]).Some? then {Pair(es[|es|-1]).value} else {}
  }

  /** The errors one event raises after `front`, given the intents of the whole ledger. */
  function HistoryError(known: set<string>, front: History, e: Event): ErrorList {
    if e.eventType != ADDED then []
    else if Pair(e).None? then [AuditError("SESSION_MEMBERSHIP_SCHEMA_INVALID", e.id)]
    else
      var (s, i) := Pair(e).value;
      When(s !in Opened(front), "SESSION_UNKNOWN_SESSION", e.id) +
      When(i !in known, "SESSION_UNKNOWN_INTENT", e.id) +
      When((s, i) in Joined(front), "DUPLICATE_SESSION_MEMBERSHIP", s + ":" + i)
  }

  function HistoryErrors(known: set<string>, es: History): ErrorList {
    if es == [] then []
    else HistoryErrors(known, es[..|es|-1]) + HistoryError(known, es[..|es|-1], es[|es|-1])
  }

  /** `check_session_history`. */
  method CheckSessionHistory(es: History) returns (errors: ErrorList)
    ensures errors == HistoryErrors(Inbox.KnownIntents(es), es)
  {
    hide AuditedId, Inbox.KnownIntents;
    var known := Inbox.CollectKnownIntents(es);
    errors := [];
    var sessions: set<string> := {};
    var seen: set<(string, string)> := {};
    for k := 0 to |es|
      invariant errors == HistoryErrors(known, es[..k]) && sessions == Opened(es[..k]) && seen == Joined(es[..k])
    {
      var e := es[k];
      Upto(es, k);
      var s, i := AuditedId(e, "session_id"), AuditedId(e, "intent_id");
      if e.eventType == CREATED {
        if s.Some? { sessions := sessions + {s.value}; }
      } else if e.eventType == ADDED {
        if s.None? || i.None? {
          errors := errors + [AuditError("SESSION_MEMBERSHIP_SCHEMA_INVALID", e.id)];
        } else {
          var more := When(s.value !in sessions, "SESSION_UNKNOWN_SESSION", e.id) +
            When(i.value !in known, "SESSION_UNKNOWN_INTENT", e.id) +
            When((s.value, i.value) in seen, "DUPLICATE_SESSION_MEMBERSHIP", s.value + ":" + i.value);
          errors := errors + more;
          seen := seen + {(s.value, i.value)};
        }
      }
    }
    assert es[..|es|] == es;
  }

  /** The ids the auditor reads from an event: those of the artifact's content if it is a dict, whatever the top level
      says. */
  predicate Reads(e: Event, s: string, i: string) {
    var a := Sub(Doc(e), "artifact");
    var m := if "content" in a && a["content"].Obj? then a["content"].fields else Doc(e);
    Name(m, "session_id") == Some(s) && Name(m, "intent_id") == Some(i)
  }

  predicate ReadsSession(e: Event, s: string) {
    var a := Sub(Doc(e), "artifact");
    Name(if "content" in a && a["content"].Obj? then a["content"].fields else Doc(e), "session_id") == Some(s)
  }

  /** The event opens the session. */
  predicate Opens(e: Event, s: string) {
    e.eventType == "session_created" && ReadsSession(e, s)
  }

  /** The event makes the intent a member of the session. */
  predicate MakesMember(e: Event, s: string, i: string) {
    e.eventType == "session_intent_added" && Reads(e, s, i)
  }

  lemma {:induction false} OpenedSometime(es: History, s: string)
    ensures s in Opened(es) <==> exists n: nat :: n < |es| && Opens(es[n], s)
  {
    hide Doc;
    if es != [] {
      var front := es[..|es|-1];
      OpenedSometime(front, s);
      hide ReadsSession, AuditedId;
      if n: nat :| n < |front| && Opens(front[n], s) { assert Opens(es[n], s); }
      if n: nat :| n < |es| && Opens(es[n], s) {
        if n < |front| { assert Opens(front[n], s); }
      }
      OpensIs(es[|es|-1], s);
    }
  }

  lemma OpensIs(e: Event, s: string)
    ensures Opens(e, s) <==> e.eventType == CREATED && AuditedId(e, "session_id") == Some(s)
  {
  }

  lemma MakesIs(e: Event, s: string, i: string)
    ensures MakesMember(e, s, i) <==> Pair(e) == Some((s, i))
  {
  }

  lemma {:induction false} JoinedSometime(es: History, s: string, i: string)
    ensures (s, i) in Joined(es) <==> exists n: nat :: n < |es| && MakesMember(es[n], s, i)
  {
    hide MakesMember, Pair;
    if es != [] {
      var front := es[..|es|-1];
      JoinedSometime(front, s, i);
      MakesIs(es[|es|-1], s, i);
      if n: nat :| n < |front| && MakesMember(front[n], s, i) { assert MakesMember(es[n], s, i); }
      if n: nat :| n < |es| && MakesMember(es[n], s, i) {
        if n < |front| { assert MakesMember(front[n], s, i); }
      }
    }
  }

  /** Event `n` makes a member of a session that no event before it opens. */
  ghost predicate Sessionless(es: History, n: nat) {
    n < |es| && exists s, i :: MakesMember(es[n], s, i) && forall m: nat :: m < n ==> !Opens(es[m], s)
  }

  /** Event `n` makes a member of an intent that no event submits, before it or after. */
  ghost predicate Intentless(known: set<string>, es: History, n: nat) {
    n < |es| && exists s, i :: MakesMember(es[n], s, i) && i !in known
  }

  /** Event `n` makes a member of one that an earlier event has made one. */
  ghost predicate MemberAgain(es: History, n: nat, s: string, i: string) {
    n < |es| && MakesMember(es[n], s, i) && exists m: nat :: m < n && MakesMember(es[m], s, i)
  }

  /** The event says that a member was added, and does not name a session and an intent. */
  predicate Unreadable(e: Event) {
    var a := Sub(Doc(e), "artifact");
    var m := if "content" in a && a["content"].Obj? then a["content"].fields else Doc(e);
    e.eventType == "session_intent_added" && (Name(m, "session_id").None? || Name(m, "intent_id").None?)
  }

  /** What the check has to say of event `n`. */
  ghost predicate Wrong(known: set<string>, es: History, n: nat, x: AuditError) {
    && n < |es|
    && (|| (Unreadable(es[n]) && x == AuditError("SESSION_MEMBERSHIP_SCHEMA_INVALID", es[n].id))
        || (Sessionless(es, n) && x == AuditError("SESSION_UNKNOWN_SESSION", es[n].id))
        || (Intentless(known, es, n) && x == AuditError("SESSION_UNKNOWN_INTENT", es[n].id))
        || exists s, i :: MemberAgain(es, n, s, i) && x == AuditError("DUPLICATE_SESSION_MEMBERSHIP", s + ":" + i))
  }

  lemma UnreadableIs(e: Event)
    ensures Unreadable(e) <==> e.eventType == ADDED && Pair(e).None?
    ensures Pair(e).Some? ==> e.eventType == ADDED
  {
  }

  lemma WrongIs(known: set<string>, es: History, n: nat, x: AuditError)
    requires n < |es|
    ensures Wrong(known, es, n, x) <==> x in HistoryError(known, es[..n], es[n])
  {
    hide Opens, MakesMember, Pair, Unreadable, Opened, Joined;
    var e := es[n];
    UnreadableIs(e);
    forall s, i ensures MakesMember(e, s, i) <==> Pair(e) == Some((s, i)) { MakesIs(e, s, i); }
    forall m: nat | m < n ensures es[..n][m] == es[m] { }
    if Pair(e).Some? {
      var (s, i) := Pair(e).value;
      OpenedSometime(es[..n], s);
      JoinedSometime(es[..n], s, i);
      assert MakesMember(e, s, i);
      assert MemberAgain(es, n, s, i) <==> (s, i) in Joined(es[..n]);
      assert Sessionless(es, n) <==> s !in Opened(es[..n]);
      assert Intentless(known, es, n) <==> i !in known;
    }
  }

  lemma WrongFront(known: set<string>, es: History, n: nat, x: AuditError)
    requires es != []
    ensures Wrong(known, es[..|es|-1], n, x) <==> Wrong(known, es, n, x) && n < |es| - 1
  {
    hide HistoryError, Unreadable, Sessionless, Intentless, MemberAgain;
    if n < |es| - 1 {
      WrongIs(known, es, n, x);
      WrongIs(known, es[..|es|-1], n, x);
      assert es[..|es|-1][..n] == es[..n];
      hide Wrong;
    }
  }

  lemma WrongInside(known: set<string>, es: History, n: nat, x: AuditError)
    requires Wrong(known, es, n, x)
    ensures n < |es|
  {
  }

  /** The check reports exactly that. */
  lemma {:induction false} HistoryFinds(known: set<string>, es: History, x: AuditError)
    ensures x in HistoryErrors(known, es) <==> exists n: nat :: Wrong(known, es, n, x)
  {
    hide HistoryError, Wrong;
    if es == [] {
      forall n: nat ensures !Wrong(known, es, n, x) { if Wrong(known, es, n, x) { WrongInside(known, es, n, x); } }
    } else {
      var front, k := es[..|es|-1], |es| - 1;
      HistoryFinds(known, front, x);
      WrongIs(known, es, k, x);
      forall n: nat { WrongFront(known, es, n, x); }
      if n: nat :| Wrong(known, front, n, x) { assert Wrong(known, es, n, x); }
      if n: nat :| Wrong(known, es, n, x) {
        WrongInside(known, es, n, x);
        assert n == k || Wrong(known, front, n, x);
      }
    }
  }

  lemma HistoryCheckExact(known: set<string>, es: History)
    ensures HistoryErrors(known, es) == [] <==> forall n: nat, x :: !Wrong(known, es, n, x)
  {
    hide HistoryErrors, Wrong;
    if HistoryErrors(known, es) != [] { HistoryFinds(known, es, HistoryErrors(known, es)[0]); }
    if n: nat, x :| Wrong(known, es, n, x) { HistoryFinds(known, es, x); }
  }

  /** The event adds intent `i` to session `s`. */
  predicate Adds(e: Event, s: string, i: string) {
    e.eventType == ADDED && IdIn(e, "session_id") == Some(s) && IdIn(e, "intent_id") == Some(i)
  }

  /** Numbering a new member by the members there are, and giving the session that count, is the rebuild's next
      step. */
  lemma InsertIsStep(es: History, e: Event, s: string, i: string)
    requires Adds(e, s, i) && s in Books(es).sessions && (s, i) !in Books(es).members
    ensures var b := Books(es); var n := |Intents(b.members.Keys, s)| + 1;
      Books(es + [e]) == Book(b.sessions[s := b.sessions[s].(intentCount := n, lastEventId := e.id)],
                              b.members[(s, i) := MemberRow(n, e.createdAt, e.id)])
  {
    hide IdIn, Intents, HasRank;
    Snoc(es, e);
    BooksOrdered(es);
    assert Ranked(Books(es), s);
    hide Books;
  }

  // ---------------------------------------------------------------- queries and legality

  /** `_session_exists`. */
  predicate SessionExists(es: History, s: string) {
    es != [] &&
    (SessionExists(es[..|es|-1], s) || (es[|es|-1].eventType == CREATED && Refers(es[|es|-1], "session_id", s)))
  }

  /** `_membership_exists`. */
  predicate MembershipExists(es: History, s: string, i: string) {
    es != [] &&
    (MembershipExists(es[..|es|-1], s, i) ||
     (es[|es|-1].eventType == ADDED && Refers(es[|es|-1], "session_id", s) && Refers(es[|es|-1], "intent_id", i)))
  }

  /** Both readers agree, and the event mentions its own session and intent only. */
  ghost predicate SessionShaped(e: Event) {
    && PlainIds(e)
    && (e.eventType == CREATED || e.eventType == ADDED ==> forall s :: Mentioned(e, "session_id", s) <==> IdIn(e, "session_id") == Some(s))
    && (e.eventType == ADDED ==> forall i :: Mentioned(e, "intent_id", i) <==> IdIn(e, "intent_id") == Some(i))
  }

  /** A creation is new; a member is an intent of a known session and a known intent, added once. */
  predicate LegalSessionEvent(before: History, e: Event) {
    var s, i, b := IdIn(e, "session_id"), IdIn(e, "intent_id"), Books(before);
    && (e.eventType == CREATED ==> s.Some? && s.value !in b.sessions)
    && (e.eventType == ADDED ==>
         && s.Some? && i.Some? && s.value in b.sessions && (s.value, i.value) !in b.members
         && i.value in Inbox.KnownIntents(before))
  }

  ghost predicate LegalSessions(es: History) {
    es == [] ||
    (LegalSessions(es[..|es|-1]) && SessionShaped(es[|es|-1]) && LegalSessionEvent(es[..|es|-1], es[|es|-1]))
  }

  /** Where the lookups are exact, the queries read what the rebuilt tables hold on legal histories. */
  lemma {:induction false} QueriesAreTables(es: History, s: string, i: string)
    requires LegalSessions(es)
    ensures Exact(es, "session_id", s) ==> (SessionExists(es, s) <==> s in Books(es).sessions)
    ensures Exact(es, "session_id", s) && Exact(es, "intent_id", i) ==> (MembershipExists(es, s, i) <==> (s, i) in Books(es).members)
  {
    hide IdIn, Refers, Mentioned, PlainIds, Exact;
    if es != [] {
      if Exact(es, "session_id", s) { ExactFront(es, "session_id", s); }
      if Exact(es, "intent_id", i) { ExactFront(es, "intent_id", i); }
      QueriesAreTables(es[..|es|-1], s, i);
    }
  }

  lemma {:induction false} LegalNotStale(es: History)
    requires LegalSessions(es)
    ensures Stale(es) == {} && Books(es) == ExpectedBook(es)
  {
    hide IdIn, AuditedId, Inbox.KnownIntents, Mentioned;
    if es != [] { LegalNotStale(es[..|es|-1]); }
  }

  lemma {:induction false} LegalOpened(es: History)
    requires LegalSessions(es)
    ensures Opened(es) == Books(es).sessions.Keys && Joined(es) == Books(es).members.Keys
  {
    hide IdIn, AuditedId, Inbox.KnownIntents, Mentioned;
    if es != [] { LegalOpened(es[..|es|-1]); }
  }

  /** Legal histories pass `check_session_history`, against any later set of known intents. */
  lemma {:induction false} LegalHistoryClean(es: History, known: set<string>)
    requires LegalSessions(es) && Inbox.KnownIntents(es) <= known
    ensures HistoryErrors(known, es) == []
  {
    hide IdIn, AuditedId, Mentioned, Opened, Joined;
    if es != [] {
      var front := es[..|es|-1];
      LegalHistoryClean(front, known);
      LegalOpened(front);
    }
  }

  lemma {:induction false} NamesNonEmpty(es: History)
    ensures "" !in Books(es).sessions
  {
    if es != [] {
      NamesNonEmpty(es[..|es|-1]);
      IdNonEmpty(es[|es|-1], "session_id");
      hide IdIn;
    }
  }

  lemma IdNonEmpty(e: Event, k: string)
    ensures IdIn(e, k) != Some("")
  {
  }
}
