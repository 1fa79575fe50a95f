/** What a caller may rely on: what every allowed call keeps, and when the calls succeed, in terms of the
    live tables. */
module Outcomes {
  import opened Strings
  import opened Like
  import opened Json
  import opened Ledger
  import opened State
  import opened Payloads
  import opened Paths
  import opened Kernels
  import opened Appends
  import opened Frames
  import opened Invariant
  import opened Events
  import opened IntentSteps
  import opened RunSteps
  import opened ClaimSteps
  import opened SessionSteps
  import opened DispatchSteps
  import opened Effects
  import opened DispatchOutcome
  import opened System
  import opened Auditor
  import opened Guarantees
  import Inbox
  import Claims
  import Lifecycle
  import Sessions
  import Lookup

  /** The call is one the model speaks of, made in a sound state. */
  ghost predicate MayCall(db: Db, op: Op) {
    Inv(db) && Allowed(db, op)
  }

  /** What a call keeps: the ledger only grows, and after an allowed call in a sound state every live table is
      the fold of the ledger again and the audit reports nothing, registrations after a restart aside. */
  ghost predicate Upholds(before: Db, op: Op, after: Db) {
    && before.events <= after.events
    && (MayCall(before, op) ==> Inv(after) && Synced(after) && (after.restarts == 0 ==> Clean(after, map[], true)))
  }

  lemma Upheld(before: Db, op: Op, after: Db)
    requires after == Apply(before, op)
    ensures Upholds(before, op, after)
  {
    hide Inv, Allowed, Apply, Synced, Clean;
    ApplyGrows(before, op);
    if MayCall(before, op) {
      ApplyKeeps(before, op);
      SoundState(after);
    }
  }

  lemma SoundState(db: Db)
    requires Inv(db)
    ensures Synced(db) && (db.restarts == 0 ==> Clean(db, map[], true))
  {
    hide Clean, Synced;
    assert Holds(LiveTables, db);
    assert FreshReceipts(map[], db.events);
    InvClean(db, map[], true);
  }

  // ---------------------------------------------------------------- when calls succeed

  /** The intent's live row has the status. */
  predicate HasStatus(db: Db, i: string, status: string) {
    i in db.intents && db.intents[i].status == status
  }

  /** A claim is granted if and only if the owner has a name, the intent is pending, no claim on it stands and
      the append succeeds. */
  lemma ClaimSucceeds(db: Db, i: string, owner: Arg, claim: string, a: Attempt)
    requires Inv(db) && Id(db, i)
    ensures ClaimIntent(db, i, owner, claim, a).1.success <==>
      UsableName(owner) && HasStatus(db, i, "PENDING") && i !in db.claims && a.ok
  {
    hide Inv, ClaimIntent, Adds, Notes;
    ClaimEffectIs(db, i, owner, claim, a);
  }

  /** A release succeeds if and only if the standing claim is the owner's and the append succeeds. */
  lemma ReleaseSucceeds(db: Db, i: string, owner: Arg, a: Attempt)
    requires Inv(db) && Id(db, i)
    ensures ReleaseClaim(db, i, owner, a).1.success <==>
      UsableName(owner) && i in db.claims && db.claims[i].ownerId == owner.s && a.ok
  {
    hide Inv, ReleaseClaim, Adds, Notes;
    ReleaseEffectIs(db, i, owner, a);
  }

  /** A lifecycle event is accepted if and only if its run stands where the event may follow, its payload can be
      recorded and the append succeeds. */
  lemma AdvanceSucceeds(db: Db, r: string, t: string, extra: Option<Fields>, a: Attempt)
    requires Inv(db) && Id(db, r)
    ensures AppendLifecycle(db, r, t, extra, a).1.success <==>
      Appendable(t) && r != "" && r in db.runs && Lifecycle.Follows(db.runs[r].state, t) && extra.Some? && a.ok
  {
    hide Inv, AppendLifecycle, Lifecycle.Follows, Adds;
    AdvanceEffectIs(db, r, t, extra, a);
  }

  /** An intent joins a session if and only if both exist, it has not joined before and the append succeeds. */
  lemma AddSucceeds(db: Db, s: string, i: string, a: Attempt)
    requires Inv(db) && Id(db, s) && Id(db, i)
    ensures AddIntent(db, s, i, a).1.success <==> s in db.sessions && i in db.intents && (s, i) !in db.members && a.ok
  {
    hide Inv, AddIntent, Adds, Notes;
    JoinEffectIs(db, s, i, a);
  }

  /** A write succeeds if and only if there is content, the path is a text that normalizes to one inside the intent's
      directory, no file is there and the append succeeds. */
  lemma WriteSucceeds(db: Db, i: string, path: Py, content: Option<Bytes>, artifact: string, a: Attempt)
    requires Inv(db) && Id(db, i)
    ensures WriteArtifact(db, i, path, content, artifact, a).1.Wrote? <==>
      && content.Some? && path.PStr? && NormalizeRelativePath(path.s).Path?
      && (i, NormalizeRelativePath(path.s).normal) !in db.files && a.ok
  {
    hide Inv, WriteArtifact, NormalizeRelativePath, Adds, Notes;
    WriteEffectIs(db, i, path, content, artifact, a);
  }

  /** A dispatch succeeds if and only if its intent is pending, the worker has a name, its answer can be recorded
      and the five appends succeed. */
  lemma DispatchGoesThrough(db: Db, j: Job)
    requires MayCall(db, Dispatch(j))
    ensures DispatchOnce(db, j).1.success <==>
      && HasStatus(db, j.intentId, "PENDING") && UsableName(j.worker) && Recordable(j.response)
      && j.claim.ok && j.run.ok && j.running.ok && j.artifact.ok && j.final.ok
  {
    hide Inv, Schedule, DispatchPlan, AllowedJob, Recordable, DispatchOnce;
    DispatchSucceeds(db, j);
  }

  /** With snapshots both captures must succeed too. */
  lemma ObservedGoesThrough(db: Db, j: Job, p: Observation, v: Observation)
    requires MayCall(db, DispatchObserved(j, p, v))
    ensures DispatchWithProvenance(db, j, p, v).1.success <==>
      && HasStatus(db, j.intentId, "PENDING") && UsableName(j.worker) && Recordable(j.response)
      && p.a.ok && p.error.None? && v.a.ok && v.error.None?
      && j.claim.ok && j.run.ok && j.running.ok && j.artifact.ok && j.final.ok
  {
    hide Inv, Schedule, CapturePlan, AllowedJob, Recordable, AllowedObservations, DispatchWithProvenance;
    ProvenanceSucceeds(db, j, p, v);
  }

  // ---------------------------------------------------------------- what a dispatch leaves

  const RUN_ROWS := ["run_created", "state_running", "artifact_written"]
  const SNAPSHOT_ROWS := ["provenance_captured", "environment_captured"]

  /** The rows at `n` and after are of the types. */
  predicate Types(es: History, n: nat, ts: seq<string>) {
    |es| == n + |ts| && forall k :: 0 <= k < |ts| ==> es[n + k].eventType == ts[k]
  }

  /** How a dispatch that succeeds ends: the intent's row, the answer and the last row say whether the worker returned
      a result that reports success; the row before holds the payload the intent was submitted with, the outputs in
      canonical form and the result. */
  ghost predicate Ended(db: Db, j: Job, s: Snapshots, after: Db, result: DispatchResult) {
    var n, i, w, x, nfc := |after.events|, j.intentId, Recorded(j.worker), j.response, db.cfg.nfc;
    var status := if x.Returned? && x.result.success then "COMPLETED" else "FAILED";
    && n >= 2 && i in db.inbox && i in after.intents && after.intents[i].status == status && result.status == Some(status)
    && after.events[n-1].eventType == (if x.Returned? && x.result.success then "intent_completed" else "intent_failed")
    && Doc(after.events[n-1]) == ClosingDoc(nfc, i, w, status,
         if x.Returned? then x.result.error else Some("UNEXPECTED"), if x.Returned? then x.result.message else x.message)
    && Doc(after.events[n-2]) == map[
         "run_id" := Str(j.runId), "artifact" := Typed("worker_result", ArtifactContent(nfc, j, w, db.inbox[i].payload, s))]
  }

  lemma TypesBefore(es: History, n: nat, t: string, ts: seq<string>)
    requires Types(es, n + 1, ts) && es[n].eventType == t
    ensures Types(es, n, [t] + ts)
  {
    forall k | 0 <= k < |[t] + ts| ensures es[n + k].eventType == ([t] + ts)[k] {
      if k > 0 { assert es[(n + 1) + (k - 1)].eventType == ts[k - 1]; }
    }
  }

  lemma ToldReads(e: Event, a: Attempt, t: string, m: Fields, operation: Option<string>, hash: Option<string>)
    requires Tells(e, a, t, m, operation, hash)
    ensures Doc(e) == m && e.eventType == t
  {
  }

  lemma ExecutesEnded(start: Db, db: Db, j: Job, s: Snapshots, ids: seq<string>, after: Db, result: DispatchResult)
    requires Executes(start, j, Recorded(j.worker), Submitted(db, j.intentId), s, ids, after, result) && result.success
    requires start.cfg == db.cfg && j.intentId in db.inbox
    ensures Ended(db, j, s, after, result) && start.events <= after.events
    ensures Types(after.events, |start.events|, RUN_ROWS + [ClosingType(j.response)])
  {
    hide Tells, Recordable, ArtifactContent, ClosingDoc;
    var n, w, x, nfc := |start.events|, Recorded(j.worker), j.response, db.cfg.nfc;
    ToldReads(after.events[n], j.run, "run_created", map["run_id" := Str(j.runId), "operation_id" := Str(j.intentId)], Some(j.intentId), None);
    ToldReads(after.events[n+1], j.running, "state_running", map["run_id" := Str(j.runId)], None, None);
    ToldReads(after.events[n+2], j.artifact, "artifact_written",
      map["run_id" := Str(j.runId), "artifact" := Typed("worker_result", ArtifactContent(nfc, j, w, Submitted(db, j.intentId), s))], None, None);
    ToldReads(after.events[n+3], j.final, ClosingType(x), ClosingDoc(nfc, j.intentId, w, Closing(x), Trouble(x), Message(x)), None, None);
  }

  /** A dispatch that succeeds records five rows, and ends as the worker's response has it. */
  lemma DispatchAnswers(db: Db, j: Job)
    requires MayCall(db, Dispatch(j)) && DispatchOnce(db, j).1.success
    ensures var (after, result) := DispatchOnce(db, j);
      && Ended(db, j, NoSnapshots, after, result)
      && Types(after.events, |db.events|, ["intent_claimed"] + RUN_ROWS + [ClosingType(j.response)])
  {
    hide Inv, QuietValue, Schedule, DispatchPlan, DispatchOnce, Executes, Ended, Recordable, Types;
    DispatchEffectIs(db, j, []);
    DispatchGoesThrough(db, j);
    PendingEntered(db, j.intentId);
    var (after, result) := DispatchOnce(db, j);
    var w, n := Recorded(j.worker), |db.events|;
    ExecutesEnded(Marked(db, j, w, after.events[..n+1]), db, j, NoSnapshots, [], after, result);
    ToldReads(after.events[n], j.claim, "intent_claimed",
      map["intent_id" := Str(j.intentId), "status" := Str("RUNNING"), "worker_name" := Str(w)], None, None);
    TypesBefore(after.events, n, "intent_claimed", RUN_ROWS + [ClosingType(j.response)]);
    assert ["intent_claimed"] + RUN_ROWS + [ClosingType(j.response)] == ["intent_claimed"] + (RUN_ROWS + [ClosingType(j.response)]);
  }

  /** A pending intent has its inbox entry. */
  lemma PendingEntered(db: Db, i: string)
    requires Inv(db) && Id(db, i) && HasStatus(db, i, "PENDING")
    ensures i in db.inbox
  {
    hide Inv, Inbox.StatusQuery, Inbox.ReadPayload;
    IntentFacts(db, i);
    PayloadIs(db, i);
  }

  lemma ObservesEnded(start: Db, db: Db, j: Job, p: Observation, v: Observation, after: Db, result: DispatchResult)
    requires Observes(start, j, Recorded(j.worker), Submitted(db, j.intentId), p, v, after, result) && result.success
    requires start.cfg == db.cfg && j.intentId in db.inbox
    ensures Ended(db, j, Snapshots(p.id, v.id), after, result) && start.events <= after.events
    ensures Types(after.events, |start.events|, SNAPSHOT_ROWS + RUN_ROWS + [ClosingType(j.response)])
  {
    hide Executes, Recordable, Ended, Tells, Submitted, ClosingDoc, Types;
    var w, n := Recorded(j.worker), |start.events|;
    ObservesSucceeds(start, j, w, Submitted(db, j.intentId), p, v, after, result);
    var seen: Db, known: Db :| Observing(start, seen, known, j, w, Submitted(db, j.intentId), p, v, after, result);
    ExecutesEnded(known, db, j, Snapshots(p.id, v.id), [p.id, v.id], after, result);
    assert after.events[n] == seen.events[n] && after.events[n+1] == known.events[n+1];
    CapturedType(after.events[n], Provenance, j.intentId, p);
    CapturedType(after.events[n+1], Environment, j.intentId, v);
    var ts := RUN_ROWS + [ClosingType(j.response)];
    TypesBefore(after.events, n + 1, "environment_captured", ts);
    TypesBefore(after.events, n, "provenance_captured", ["environment_captured"] + ts);
    assert SNAPSHOT_ROWS + RUN_ROWS + [ClosingType(j.response)] == ["provenance_captured"] + (["environment_captured"] + ts);
  }

  lemma CapturedType(e: Event, kind: Kind, i: string, o: Observation)
    requires Captured(e, kind, i, o) && o.error.None?
    ensures e.eventType == if kind.Provenance? then "provenance_captured" else "environment_captured"
  {
  }

  /** With snapshots there are seven rows, and the artifact names both snapshots. */
  lemma ObservedAnswers(db: Db, j: Job, p: Observation, v: Observation)
    requires MayCall(db, DispatchObserved(j, p, v)) && DispatchWithProvenance(db, j, p, v).1.success
    ensures var (after, result) := DispatchWithProvenance(db, j, p, v);
      && Ended(db, j, Snapshots(p.id, v.id), after, result)
      && Types(after.events, |db.events|, ["intent_claimed"] + SNAPSHOT_ROWS + RUN_ROWS + [ClosingType(j.response)])
  {
    hide Inv, QuietValue, AllowedObservations, Schedule, CapturePlan, DispatchWithProvenance, Observes, Ended, Recordable, Types;
    ProvenanceEffectIs(db, j, p, v, []);
    ObservedGoesThrough(db, j, p, v);
    PendingEntered(db, j.intentId);
    var (after, result) := DispatchWithProvenance(db, j, p, v);
    var w, n := Recorded(j.worker), |db.events|;
    ObservesEnded(Marked(db, j, w, after.events[..n+1]), db, j, p, v, after, result);
    ToldReads(after.events[n], j.claim, "intent_claimed",
      map["intent_id" := Str(j.intentId), "status" := Str("RUNNING"), "worker_name" := Str(w)], None, None);
    var ts := SNAPSHOT_ROWS + RUN_ROWS + [ClosingType(j.response)];
    TypesBefore(after.events, n, "intent_claimed", ts);
    assert ["intent_claimed"] + SNAPSHOT_ROWS + RUN_ROWS + [ClosingType(j.response)] == ["intent_claimed"] + ts;
  }

  // ---------------------------------------------------------------- claim and release around a dispatch

  /** The two snapshots of a dispatch, if it takes any. */
  type Watch = Option<(Observation, Observation)>

  ghost predicate DispatchingAs(db: Db, j: Job, o: Watch, after: Db, result: DispatchResult) {
    match o
    case None => Dispatching(db, j, after, result)
    case Some((p, v)) => DispatchingObserved(db, j, p, v, after, result)
  }

  /** Claim, dispatch and release, each as it is on its own; `claimed` and `done` are the states in between. */
  ghost predicate Tracking(
    db: Db, claimed: Db, done: Db, claim: ClaimResult, answer: DispatchResult, released: ReleaseResult,
    j: Job, o: Watch, b: Bracket, after: Db, result: DispatchResult)
  {
    && Claiming(db, j.intentId, b.owner, b.claimId, b.claim, claimed, claim)
    && if !claim.success then after == claimed && result == DispatchResult(false, None, None, claim.error, None, [])
       else
         && DispatchingAs(claimed, j, o, done, answer) && done.claims == claimed.claims
         && Releasing(done, j.intentId, b.owner, b.release, after, released)
         && result == answer.(releaseError := released.error)
  }

  /** `dispatch_and_track` and `dispatch_with_provenance_and_track`. */
  ghost predicate Tracks(db: Db, j: Job, o: Watch, b: Bracket, after: Db, result: DispatchResult) {
    exists claimed: Db, done: Db, claim: ClaimResult, answer: DispatchResult, released: ReleaseResult ::
      Tracking(db, claimed, done, claim, answer, released, j, o, b, after, result)
  }

  /** After its claim the dispatch may start. */
  lemma TrackClaimed(db: Db, j: Job, b: Bracket, plan: seq<Attempt>)
    requires Inv(db) && AllowedJob(db, j) && AllowedBracket(db, b) && Schedule(db.events, [b.claim] + plan)
    ensures var (claimed, claim) := ClaimIntent(db, j.intentId, b.owner, b.claimId, b.claim);
      && Inv(claimed) && AllowedJob(claimed, j) && Id(claimed, j.intentId) && Schedule(claimed.events, plan)
      && Claiming(db, j.intentId, b.owner, b.claimId, b.claim, claimed, claim)
  {
    hide Inv, Usable, Schedule, Took, QuietValue, ClaimIntent, Claiming;
    var claimed := ClaimIntent(db, j.intentId, b.owner, b.claimId, b.claim).0;
    First(db.events, b.claim, plan);
    ClaimIntentKeeps(db, j.intentId, b.owner, b.claimId, b.claim);
    ClaimFrame(db, j.intentId, b.owner, b.claimId, b.claim);
    Then(db.events, claimed.events, b.claim, plan);
    AllowedAfterClaim(db, claimed, j);
    ClaimEffectIs(db, j.intentId, b.owner, b.claimId, b.claim);
  }

  lemma NoReleaseError(db: Db, j: Job, o: Watch, after: Db, result: DispatchResult)
    requires DispatchingAs(db, j, o, after, result)
    ensures result.releaseError == None
  {
    hide RunRows, Recordable, ClaimedBy, Marked, Snapped, Adds;
  }

  lemma ReleasingError(db: Db, i: string, owner: Arg, a: Attempt, after: Db, result: ReleaseResult)
    requires Releasing(db, i, owner, a, after, result)
    ensures result.success <==> result.error == None
  {
    hide Adds, Notes;
  }

  lemma TrackedIs(db: Db, j: Job, b: Bracket)
    requires Inv(db) && AllowedJob(db, j) && AllowedBracket(db, b)
    requires Schedule(db.events, [b.claim] + DispatchPlan(j, [b.release]))
    ensures Tracks(db, j, None, b, DispatchAndTrack(db, j, b).0, DispatchAndTrack(db, j, b).1)
  {
    hide Inv, AllowedJob, AllowedBracket, Schedule, ClaimIntent, DispatchOnce, ReleaseClaim, DispatchPlan, Claiming,
      Dispatching, Releasing;
    var (claimed, claim) := ClaimIntent(db, j.intentId, b.owner, b.claimId, b.claim);
    TrackClaimed(db, j, b, DispatchPlan(j, [b.release]));
    var (done, answer) := DispatchOnce(claimed, j);
    DispatchKeeps(claimed, j, [b.release]);
    DispatchKept(claimed, j);
    DispatchEffectIs(claimed, j, [b.release]);
    var (after, released) := ReleaseClaim(done, j.intentId, b.owner, b.release);
    ReleaseEffectIs(done, j.intentId, b.owner, b.release);
    NoReleaseError(claimed, j, None, done, answer);
    ReleasingError(done, j.intentId, b.owner, b.release, after, released);
    assert Tracking(db, claimed, done, claim, answer, released, j, None, b, DispatchAndTrack(db, j, b).0, DispatchAndTrack(db, j, b).1);
  }

  lemma ObservedTrackedIs(db: Db, j: Job, p: Observation, v: Observation, b: Bracket)
    requires Inv(db) && AllowedJob(db, j) && AllowedObservations(p, v) && AllowedBracket(db, b)
    requires Schedule(db.events, [b.claim] + CapturePlan(j, p, v, [b.release]))
    ensures var (after, result) := DispatchWithProvenanceAndTrack(db, j, p, v, b);
      Tracks(db, j, Some((p, v)), b, after, result)
  {
    hide Inv, AllowedJob, AllowedBracket, AllowedObservations, Schedule, ClaimIntent, DispatchWithProvenance, ReleaseClaim, CapturePlan,
      Claiming, DispatchingObserved, Releasing;
    var (claimed, claim) := ClaimIntent(db, j.intentId, b.owner, b.claimId, b.claim);
    TrackClaimed(db, j, b, CapturePlan(j, p, v, [b.release]));
    var (done, answer) := DispatchWithProvenance(claimed, j, p, v);
    ProvenanceKeeps(claimed, j, p, v, [b.release]);
    ProvenanceKept(claimed, j, p, v);
    ProvenanceEffectIs(claimed, j, p, v, [b.release]);
    var (after, released) := ReleaseClaim(done, j.intentId, b.owner, b.release);
    ReleaseEffectIs(done, j.intentId, b.owner, b.release);
    NoReleaseError(claimed, j, Some((p, v)), done, answer);
    ReleasingError(done, j.intentId, b.owner, b.release, after, released);
    var (end, result) := DispatchWithProvenanceAndTrack(db, j, p, v, b);
    assert Tracking(db, claimed, done, claim, answer, released, j, Some((p, v)), b, end, result);
  }

  /** The snapshots, if any, report no error. */
  predicate Seen(o: Watch) {
    o.Some? ==> o.value.0.a.ok && o.value.0.error.None? && o.value.1.a.ok && o.value.1.error.None?
  }

  /** A tracked dispatch succeeds if and only if its claim is granted and the dispatch goes through; then the answer
      carries an error of the release if and only if the release could not be recorded. */
  lemma TracksSucceeds(db: Db, j: Job, o: Watch, b: Bracket, after: Db, result: DispatchResult)
    requires Tracks(db, j, o, b, after, result)
    ensures result.success <==>
      && UsableName(b.owner) && HasStatus(db, j.intentId, "PENDING") && j.intentId !in db.claims && b.claim.ok
      && UsableName(j.worker) && Recordable(j.response) && Seen(o)
      && j.claim.ok && j.run.ok && j.running.ok && j.artifact.ok && j.final.ok
    ensures result.success ==> result.releaseError == (if b.release.ok then None else Some("STORAGE_FAILURE"))
    ensures result.success ==> (j.intentId in after.claims <==> !b.release.ok)
  {
    hide Dispatching, DispatchingObserved, Recordable, Adds, Notes;
    var claimed: Db, done: Db, claim: ClaimResult, answer: DispatchResult, released: ReleaseResult :|
      Tracking(db, claimed, done, claim, answer, released, j, o, b, after, result);
    if claim.success {
      match o
      case None => DispatchingSucceeds(claimed, j, done, answer);
      case Some((p, v)) => DispatchingObservedSucceeds(claimed, j, p, v, done, answer);
    }
  }

  // ---------------------------------------------------------------- what the hypothesis on keys is for

  /** Caller data of a lifecycle event, its own `run_id` aside, which always gives way to the run's: some key taken
      for `run_id` holds the id of run `r`, up to case. */
  predicate NamesRun(extra: Fields, r: string) {
    Answers(Obj(extra - {"run_id"}), "run_id", r)
  }

  /** The document of a run event answers for its own run and for those its caller's data names. */
  lemma StepAnswers(q: string, extra: Fields, r: string)
    ensures Answers(Obj(RunStep(q, extra)), "run_id", r) <==> Fits(q, r) || NamesRun(extra, r)
  {
    hide Reaches, Fits;
    SelfReached("run_id");
    var m, rest := RunStep(q, extra), extra - {"run_id"};
    assert m["run_id"] == Str(q);
    if NamesRun(extra, r) {
      var x :| x in rest && ((Reaches(x, "run_id") && rest[x].Str? && Fits(rest[x].s, r)) || Answers(rest[x], "run_id", r));
      assert m[x] == rest[x];
    }
    if Answers(Obj(m), "run_id", r) && !Fits(q, r) {
      var x :| x in m && ((Reaches(x, "run_id") && m[x].Str? && Fits(m[x].s, r)) || Answers(m[x], "run_id", r));
      assert x in rest && rest[x] == m[x];
    }
  }

  /** Whatever a caller attaches to an event of run `q`: the code's state of another run `r` stays that of its row if
      and only if the data does not name `r`, or `r` already stands where the event says. */
  lemma OtherRunStaysExact(db: Db, q: string, r: string, t: string, extra: Fields, a: Attempt)
    requires Inv(db) && Id(db, q) && Id(db, r) && r != "" && q != r
    requires AppendLifecycle(db, q, t, Some(extra), a).1.success
    ensures var after := AppendLifecycle(db, q, t, Some(extra), a).0;
      Lifecycle.StateQuery(after.events, r) == (if r in after.runs then Some(after.runs[r].state) else None) <==>
        !NamesRun(extra, r) || (r in db.runs && db.runs[r].state == t)
  {
    hide Inv, Refers, Answers, Fits, RunStep, NamesRun, Appendable, Lifecycle.Follows, Searchable;
    RunFacts(db, r);
    IdsApart(db, q, r);
    var e := Say(db, a, t, RunStep(q, extra));
    StepAnswers(q, extra, r);
    Lookup.LookupWritten(e, "run_id", r);
    Snoc(db.events, e);
  }

  lemma IdsApart(db: Db, q: string, r: string)
    requires Inv(db) && Id(db, q) && Id(db, r) && q != r
    ensures Searchable(r) && !Fits(q, r) && Nfc(db, q) == q
  {
    assert Holds(OpenFunctions, db);
    hide Inv, Good, Synced, FilesBacked, Accounted, RegistryKnown, Searchable, Fits;
  }

  /** Without it: a payload of run `q` with the key `RUN_ID` naming run `r` moves what the code takes for the state
      of `r`, and not its row. */
  lemma TakenKeyMoves(db: Db, q: string, r: string, t: string, a: Attempt)
    requires q != r && Searchable(r)
    requires AppendLifecycle(db, q, t, Some(map["RUN_ID" := Str(r)]), a).1.success
    ensures var after := AppendLifecycle(db, q, t, Some(map["RUN_ID" := Str(r)]), a).0;
      && Lifecycle.StateQuery(after.events, r) == Some(t)
      && (r in db.runs ==> r in after.runs && after.runs[r] == db.runs[r])
  {
    var m := RunStep(Nfc(db, q), map["RUN_ID" := Str(r)]);
    var e := Say(db, a, t, m);
    Lookup.Misleading("RUN_ID");
    SelfFits(r);
    hide Matches, Query, Reaches, Fits, Appendable, Lifecycle.Follows, Searchable;
    assert "RUN_ID" in m && m["RUN_ID"] == Str(r);
    Lookup.LookupFinds(Obj(m), "run_id", r);
    Snoc(db.events, e);
  }

  // ---------------------------------------------------------------- call by call

  lemma SubmitIntentUpheld(db: Db, r: Request, a: Attempt)
    ensures Upholds(db, Submit(r, a), SubmitIntent(db, r, a).0)
    ensures Submits(db, r, a, SubmitIntent(db, r, a).0, SubmitIntent(db, r, a).1)
  {
    hide Upholds, Inv, SubmitIntent, Usable, Schedule, QuietValue, DispatchPlan, CapturePlan, Recordable, HasStatus, Submits;
    Upheld(db, Submit(r, a), SubmitIntent(db, r, a).0);
    SubmitEffect(db, r, a);
  }

  lemma ClaimIntentUpheld(db: Db, i: string, owner: Arg, claim: string, a: Attempt)
    ensures Upholds(db, Claim(i, owner, claim, a), ClaimIntent(db, i, owner, claim, a).0)
    ensures MayCall(db, Claim(i, owner, claim, a)) ==>
      (ClaimIntent(db, i, owner, claim, a).1.success <==> UsableName(owner) && HasStatus(db, i, "PENDING") && i !in db.claims && a.ok)
    ensures var (after, result) := ClaimIntent(db, i, owner, claim, a);
      MayCall(db, Claim(i, owner, claim, a)) ==> Claiming(db, i, owner, claim, a, after, result)
  {
    hide Upholds, Inv, ClaimIntent, Usable, Schedule, QuietValue, DispatchPlan, CapturePlan, Recordable, HasStatus, Claiming;
    Upheld(db, Claim(i, owner, claim, a), ClaimIntent(db, i, owner, claim, a).0);
    if MayCall(db, Claim(i, owner, claim, a)) {
      ClaimSucceeds(db, i, owner, claim, a);
      ClaimEffectIs(db, i, owner, claim, a);
    }
  }

  lemma ReleaseClaimUpheld(db: Db, i: string, owner: Arg, a: Attempt)
    ensures Upholds(db, Release(i, owner, a), ReleaseClaim(db, i, owner, a).0)
    ensures MayCall(db, Release(i, owner, a)) ==>
      (ReleaseClaim(db, i, owner, a).1.success <==> UsableName(owner) && i in db.claims && db.claims[i].ownerId == owner.s && a.ok)
    ensures var (after, result) := ReleaseClaim(db, i, owner, a);
      MayCall(db, Release(i, owner, a)) ==> Releasing(db, i, owner, a, after, result)
  {
    hide Upholds, Inv, ReleaseClaim, Usable, Schedule, QuietValue, DispatchPlan, CapturePlan, Recordable, HasStatus, Releasing;
    Upheld(db, Release(i, owner, a), ReleaseClaim(db, i, owner, a).0);
    if MayCall(db, Release(i, owner, a)) {
      ReleaseSucceeds(db, i, owner, a);
      ReleaseEffectIs(db, i, owner, a);
    }
  }

  lemma CreateRunUpheld(db: Db, op: string, r: string, a: Attempt)
    ensures Upholds(db, StartRun(op, r, a), CreateRun(db, op, r, a).0)
    ensures Creating(db, op, r, a, CreateRun(db, op, r, a).0, CreateRun(db, op, r, a).1)
  {
    hide Upholds, Inv, CreateRun, Usable, Schedule, QuietValue, DispatchPlan, CapturePlan, Recordable, HasStatus, Creating;
    Upheld(db, StartRun(op, r, a), CreateRun(db, op, r, a).0);
    CreateEffectIs(db, op, r, a);
  }

  lemma AppendLifecycleUpheld(db: Db, r: string, t: string, extra: Option<Fields>, a: Attempt)
    ensures forall x: Py :: Extra(db.cfg.nfc, x) == extra ==> Upholds(db, Advance(r, t, x, a), AppendLifecycle(db, r, t, extra, a).0)
    ensures Inv(db) && Id(db, r) ==>
      (AppendLifecycle(db, r, t, extra, a).1.success <==>
        Appendable(t) && r != "" && r in db.runs && Lifecycle.Follows(db.runs[r].state, t) && extra.Some? && a.ok)
    ensures var (after, result) := AppendLifecycle(db, r, t, extra, a);
      Inv(db) && Id(db, r) ==> Advancing(db, r, t, extra, a, after, result)
  {
    hide Upholds, Inv, Id, AppendLifecycle, Extra, Appendable, Lifecycle.Follows, Advancing;
    forall x: Py | Extra(db.cfg.nfc, x) == extra ensures Upholds(db, Advance(r, t, x, a), AppendLifecycle(db, r, t, extra, a).0) {
      Upheld(db, Advance(r, t, x, a), AppendLifecycle(db, r, t, extra, a).0);
    }
    if Inv(db) && Id(db, r) {
      AdvanceSucceeds(db, r, t, extra, a);
      AdvanceEffectIs(db, r, t, extra, a);
    }
  }

  lemma DispatchOnceUpheld(db: Db, j: Job)
    ensures Upholds(db, Dispatch(j), DispatchOnce(db, j).0)
    ensures MayCall(db, Dispatch(j)) ==>
      (DispatchOnce(db, j).1.success <==>
        && HasStatus(db, j.intentId, "PENDING") && UsableName(j.worker) && Recordable(j.response)
        && j.claim.ok && j.run.ok && j.running.ok && j.artifact.ok && j.final.ok)
    ensures MayCall(db, Dispatch(j)) ==> Dispatching(db, j, DispatchOnce(db, j).0, DispatchOnce(db, j).1)
  {
    hide Upholds, Inv, DispatchOnce, Usable, Schedule, QuietValue, DispatchPlan, CapturePlan, Recordable, HasStatus, Dispatching;
    Upheld(db, Dispatch(j), DispatchOnce(db, j).0);
    if MayCall(db, Dispatch(j)) {
      DispatchGoesThrough(db, j);
      DispatchEffectIs(db, j, []);
    }
  }

  lemma DispatchByNameUpheld(db: Db, name: string, j: Job)
    ensures Upholds(db, DispatchNamed(name, j), DispatchByName(db, name, j).0)
    ensures var (after, result) := DispatchByName(db, name, j);
      MayCall(db, DispatchNamed(name, j)) ==> DispatchingNamed(db, name, j, after, result)
  {
    hide Upholds, Inv, DispatchByName, Usable, Schedule, QuietValue, DispatchPlan, CapturePlan, Recordable, HasStatus, DispatchingNamed;
    Upheld(db, DispatchNamed(name, j), DispatchByName(db, name, j).0);
    if MayCall(db, DispatchNamed(name, j)) { NamedEffectIs(db, name, j); }
  }

  lemma DispatchWithProvenanceUpheld(db: Db, j: Job, p: Observation, v: Observation)
    ensures Upholds(db, DispatchObserved(j, p, v), DispatchWithProvenance(db, j, p, v).0)
    ensures MayCall(db, DispatchObserved(j, p, v)) ==>
      (DispatchWithProvenance(db, j, p, v).1.success <==>
        && HasStatus(db, j.intentId, "PENDING") && UsableName(j.worker) && Recordable(j.response)
        && p.a.ok && p.error.None? && v.a.ok && v.error.None?
        && j.claim.ok && j.run.ok && j.running.ok && j.artifact.ok && j.final.ok)
    ensures var (after, result) := DispatchWithProvenance(db, j, p, v);
      MayCall(db, DispatchObserved(j, p, v)) ==> DispatchingObserved(db, j, p, v, after, result)
  {
    hide Upholds, Inv, DispatchWithProvenance, Usable, Schedule, QuietValue, DispatchPlan, CapturePlan, Recordable,
      HasStatus, DispatchingObserved;
    Upheld(db, DispatchObserved(j, p, v), DispatchWithProvenance(db, j, p, v).0);
    if MayCall(db, DispatchObserved(j, p, v)) {
      ObservedGoesThrough(db, j, p, v);
      ProvenanceEffectIs(db, j, p, v, []);
    }
  }

  lemma DispatchAndTrackUpheld(db: Db, j: Job, b: Bracket)
    ensures Upholds(db, DispatchTracked(j, b), DispatchAndTrack(db, j, b).0)
    ensures var (after, result) := DispatchAndTrack(db, j, b);
      MayCall(db, DispatchTracked(j, b)) ==> Tracks(db, j, None, b, after, result)
  {
    hide Upholds, Inv, DispatchAndTrack, Usable, Schedule, QuietValue, DispatchPlan, CapturePlan, Recordable, HasStatus, Tracks;
    Upheld(db, DispatchTracked(j, b), DispatchAndTrack(db, j, b).0);
    if MayCall(db, DispatchTracked(j, b)) { TrackedIs(db, j, b); }
  }

  lemma DispatchWithProvenanceAndTrackUpheld(db: Db, j: Job, p: Observation, v: Observation, b: Bracket)
    ensures Upholds(db, DispatchObservedTracked(j, p, v, b), DispatchWithProvenanceAndTrack(db, j, p, v, b).0)
    ensures var (after, result) := DispatchWithProvenanceAndTrack(db, j, p, v, b);
      MayCall(db, DispatchObservedTracked(j, p, v, b)) ==> Tracks(db, j, Some((p, v)), b, after, result)
  {
    hide Upholds, Inv, DispatchWithProvenanceAndTrack, Usable, Schedule, QuietValue, DispatchPlan, CapturePlan,
      Recordable, HasStatus, Tracks;
    Upheld(db, DispatchObservedTracked(j, p, v, b), DispatchWithProvenanceAndTrack(db, j, p, v, b).0);
    if MayCall(db, DispatchObservedTracked(j, p, v, b)) { ObservedTrackedIs(db, j, p, v, b); }
  }

  lemma RegisterWorkerUpheld(db: Db, name: Arg, a: Attempt)
    ensures Upholds(db, Register(name, a), RegisterWorker(db, name, a).0)
    ensures Registering(db, name, a, RegisterWorker(db, name, a).0, RegisterWorker(db, name, a).1)
  {
    hide Upholds, Inv, RegisterWorker, Usable, Schedule, QuietValue, DispatchPlan, CapturePlan, Recordable, HasStatus, Registering;
    Upheld(db, Register(name, a), RegisterWorker(db, name, a).0);
    RegisterEffectIs(db, name, a);
  }

  lemma CreateSessionUpheld(db: Db, s: string, a: Attempt)
    ensures Upholds(db, OpenSession(s, a), CreateSession(db, s, a).0)
    ensures Opening(db, s, a, CreateSession(db, s, a).0, CreateSession(db, s, a).1)
  {
    hide Upholds, Inv, CreateSession, Usable, Schedule, QuietValue, DispatchPlan, CapturePlan, Recordable, HasStatus, Opening;
    Upheld(db, OpenSession(s, a), CreateSession(db, s, a).0);
    OpenEffectIs(db, s, a);
  }

  lemma AddIntentUpheld(db: Db, s: string, i: string, a: Attempt)
    ensures Upholds(db, AddToSession(s, i, a), AddIntent(db, s, i, a).0)
    ensures MayCall(db, AddToSession(s, i, a)) ==>
      (AddIntent(db, s, i, a).1.success <==> s in db.sessions && i in db.intents && (s, i) !in db.members && a.ok)
    ensures var (after, result) := AddIntent(db, s, i, a);
      MayCall(db, AddToSession(s, i, a)) ==> Joining(db, s, i, a, after, result)
  {
    hide Upholds, Inv, AddIntent, Usable, Schedule, QuietValue, DispatchPlan, CapturePlan, Recordable, HasStatus, Joining;
    Upheld(db, AddToSession(s, i, a), AddIntent(db, s, i, a).0);
    if MayCall(db, AddToSession(s, i, a)) {
      AddSucceeds(db, s, i, a);
      JoinEffectIs(db, s, i, a);
    }
  }

  lemma WriteArtifactUpheld(db: Db, i: string, path: Py, content: Option<Bytes>, artifact: string, a: Attempt)
    ensures Upholds(db, Write(i, path, content, artifact, a), WriteArtifact(db, i, path, content, artifact, a).0)
    ensures var (after, result) := WriteArtifact(db, i, path, content, artifact, a);
      Inv(db) && Id(db, i) ==> Writing(db, i, path, content, artifact, a, after, result)
  {
    hide Upholds, Inv, WriteArtifact, Usable, Schedule, QuietValue, DispatchPlan, CapturePlan, Recordable, HasStatus, Writing;
    Upheld(db, Write(i, path, content, artifact, a), WriteArtifact(db, i, path, content, artifact, a).0);
    if Inv(db) && Id(db, i) { WriteEffectIs(db, i, path, content, artifact, a); }
  }

  lemma ValidateOperationUpheld(db: Db, op: string, a: Attempt)
    ensures Upholds(db, Validate(op, a), ValidateOperation(db, op, a).0)
    ensures var (after, ok) := ValidateOperation(db, op, a);
      ok == a.ok && Notes(db, after, a, "operation_validated", map["operation_id" := Str(db.cfg.nfc(op))], Some(op))
  {
    hide Upholds, Inv, ValidateOperation, Usable, Schedule, QuietValue, DispatchPlan, CapturePlan, Recordable, HasStatus, Notes;
    Upheld(db, Validate(op, a), ValidateOperation(db, op, a).0);
    ValidateEffectIs(db, op, a);
  }
}
