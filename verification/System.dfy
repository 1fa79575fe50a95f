/** Every API call as one operation, runs as sequences of operations, and what holds over all runs. */
module System {
  import opened Strings
  import opened Json
  import opened Ledger
  import opened State
  import opened Payloads
  import opened Paths
  import opened Kernels
  import opened Appends
  import opened Frames
  import opened Invariant
  import opened Events
  import opened IntentSteps
  import opened RunSteps
  import opened ClaimSteps
  import opened RegistrySteps
  import opened SessionSteps
  import opened FileSteps
  import opened DispatchSteps
  import Inbox
  import Claims
  import Lifecycle
  import Registry
  import Sessions
  import Workspace
  import Receipts

  datatype Op =
    | Submit(request: Request, a: Attempt)
    | Claim(i: string, owner: Arg, claimId: string, a: Attempt)
    | Release(i: string, owner: Arg, a: Attempt)
    | StartRun(operation: string, r: string, a: Attempt)
    | Advance(r: string, eventType: string, extra: Py, a: Attempt)
    | Dispatch(job: Job)
    | DispatchNamed(name: string, job: Job)
    | DispatchObserved(job: Job, p: Observation, v: Observation)
    | DispatchTracked(job: Job, bracket: Bracket)
    | DispatchObservedTracked(job: Job, p: Observation, v: Observation, bracket: Bracket)
    | Register(worker: Arg, a: Attempt)
    | NewProcess
    | OpenSession(s: string, a: Attempt)
    | AddToSession(s: string, i: string, a: Attempt)
    | Write(i: string, path: Py, content: Option<Bytes>, artifact: string, a: Attempt)
    | Validate(operation: string, a: Attempt)

  /** The canonical extra payload of a lifecycle event; no payload is an empty one. */
  function Extra(nfc: Normalizer, extra: Py): Option<Fields> {
    if extra.PNone? then Some(map[])
    else match Canonical(nfc, extra) case Some(Obj(m)) => Some(m) case _ => None
  }

  function Apply(db: Db, op: Op): Db {
    match op
    case Submit(r, a) => SubmitIntent(db, r, a).0
    case Claim(i, owner, claim, a) => ClaimIntent(db, i, owner, claim, a).0
    case Release(i, owner, a) => ReleaseClaim(db, i, owner, a).0
    case StartRun(operation, r, a) => CreateRun(db, operation, r, a).0
    case Advance(r, t, extra, a) => AppendLifecycle(db, r, t, Extra(db.cfg.nfc, extra), a).0
    case Dispatch(j) => DispatchOnce(db, j).0
    case DispatchNamed(name, j) => DispatchByName(db, name, j).0
    case DispatchObserved(j, p, v) => DispatchWithProvenance(db, j, p, v).0
    case DispatchTracked(j, b) => DispatchAndTrack(db, j, b).0
    case DispatchObservedTracked(j, p, v, b) => DispatchWithProvenanceAndTrack(db, j, p, v, b).0
    case Register(name, a) => RegisterWorker(db, name, a).0
    case NewProcess => Restart(db)
    case OpenSession(s, a) => CreateSession(db, s, a).0
    case AddToSession(s, i, a) => AddIntent(db, s, i, a).0
    case Write(i, path, content, artifact, a) => WriteArtifact(db, i, path, content, artifact, a).0
    case Validate(operation, a) => ValidateOperation(db, operation, a).0
  }

  ghost predicate AllowedBracket(db: Db, b: Bracket) {
    Plain(db, Recorded(b.owner)) && b.claimId != ""
  }

  ghost predicate AllowedExtra(nfc: Normalizer, t: string, extra: Py) {
    match Extra(nfc, extra)
    case None => true
    case Some(m) => NoIdKeys(Obj(m)) && (t == "artifact_written" ==> TypedArtifact(m))
  }

  /** What the model asks of callers, clock and id generator: normal names, ids from those in use, in
      caller data no key that a lookup takes for one of its own, new ids where one is drawn, a clock that
      does not go back. Appends may fail at will. */
  ghost predicate Allowed(db: Db, op: Op) {
    match op
    case Submit(r, a) => AllowedRequest(db, r) && Usable(db.events, a)
    case Claim(i, owner, claim, a) => Id(db, i) && Plain(db, Recorded(owner)) && claim != "" && Usable(db.events, a)
    case Release(i, owner, a) => Id(db, i) && Plain(db, Recorded(owner)) && Usable(db.events, a)
    case StartRun(_, r, a) => r in db.cfg.ids && r != "" && r !in db.runs && Usable(db.events, a)
    case Advance(r, t, extra, a) => Id(db, r) && AllowedExtra(db.cfg.nfc, t, extra) && Usable(db.events, a)
    case Dispatch(j) => AllowedJob(db, j) && Schedule(db.events, DispatchPlan(j, []))
    case DispatchNamed(name, j) =>
      AllowedJob(db, j.(worker := StrArg(name))) && Schedule(db.events, DispatchPlan(j, []))
    case DispatchObserved(j, p, v) =>
      AllowedJob(db, j) && AllowedObservations(p, v) && Schedule(db.events, CapturePlan(j, p, v, []))
    case DispatchTracked(j, b) =>
      AllowedJob(db, j) && AllowedBracket(db, b) && Schedule(db.events, [b.claim] + DispatchPlan(j, [b.release]))
    case DispatchObservedTracked(j, p, v, b) =>
      && AllowedJob(db, j) && AllowedObservations(p, v) && AllowedBracket(db, b)
      && Schedule(db.events, [b.claim] + CapturePlan(j, p, v, [b.release]))
    case Register(name, a) => Plain(db, Recorded(name)) && Usable(db.events, a)
    case NewProcess => true
    case OpenSession(s, a) => s in db.cfg.ids && s != "" && s !in db.sessions && Usable(db.events, a)
    case AddToSession(s, i, a) => Id(db, s) && Id(db, i) && Usable(db.events, a)
    case Write(i, path, _, artifact, a) =>
      && SingleSegment(i) && Id(db, i) && QuietValue(db.cfg.nfc, path) && artifact != "" && artifact !in db.artifacts
      && Usable(db.events, a)
    case Validate(_, a) => Usable(db.events, a)
  }

  // ---------------------------------------------------------------- tracked dispatch

  lemma AllowedAfterClaim(db: Db, after: Db, j: Job)
    requires AllowedJob(db, j) && after.runs == db.runs && after.cfg == db.cfg
    ensures AllowedJob(after, j)
  {
    hide QuietValue;
  }

  lemma TrackKeeps(db: Db, j: Job, b: Bracket)
    requires Inv(db) && AllowedJob(db, j) && AllowedBracket(db, b)
    requires Schedule(db.events, [b.claim] + DispatchPlan(j, [b.release]))
    ensures Inv(DispatchAndTrack(db, j, b).0)
  {
    hide Inv, Usable, Schedule, Took, QuietValue, ClaimIntent, DispatchOnce, ReleaseClaim, DispatchPlan, Released;
    var claimed := ClaimIntent(db, j.intentId, b.owner, b.claimId, b.claim).0;
    First(db.events, b.claim, DispatchPlan(j, [b.release]));
    ClaimIntentKeeps(db, j.intentId, b.owner, b.claimId, b.claim);
    ClaimFrame(db, j.intentId, b.owner, b.claimId, b.claim);
    Then(db.events, claimed.events, b.claim, DispatchPlan(j, [b.release]));
    AllowedAfterClaim(db, claimed, j);
    DispatchKeeps(claimed, j, [b.release]);
    var done := DispatchOnce(claimed, j).0;
    DispatchKept(claimed, j);
    LastOne(done.events, b.release);
    ReleaseClaimKeeps(done, j.intentId, b.owner, b.release);
  }

  lemma LastOne(es: History, a: Attempt)
    requires Schedule(es, [a])
    ensures Usable(es, a)
  {
    hide Usable;
    assert [a][0] == a;
  }

  lemma ObservedTrackKeeps(db: Db, j: Job, p: Observation, v: Observation, b: Bracket)
    requires Inv(db) && AllowedJob(db, j) && AllowedObservations(p, v) && AllowedBracket(db, b)
    requires Schedule(db.events, [b.claim] + CapturePlan(j, p, v, [b.release]))
    ensures Inv(DispatchWithProvenanceAndTrack(db, j, p, v, b).0)
  {
    hide Inv, Usable, Schedule, Took, QuietValue, AllowedObservations, ClaimIntent, DispatchWithProvenance, ReleaseClaim,
      CapturePlan, Released;
    var claimed := ClaimIntent(db, j.intentId, b.owner, b.claimId, b.claim).0;
    First(db.events, b.claim, CapturePlan(j, p, v, [b.release]));
    ClaimIntentKeeps(db, j.intentId, b.owner, b.claimId, b.claim);
    ClaimFrame(db, j.intentId, b.owner, b.claimId, b.claim);
    Then(db.events, claimed.events, b.claim, CapturePlan(j, p, v, [b.release]));
    AllowedAfterClaim(db, claimed, j);
    ProvenanceKeeps(claimed, j, p, v, [b.release]);
    var done := DispatchWithProvenance(claimed, j, p, v).0;
    ProvenanceKept(claimed, j, p, v);
    LastOne(done.events, b.release);
    ReleaseClaimKeeps(done, j.intentId, b.owner, b.release);
  }


  // ---------------------------------------------------------------- one operation

  lemma NamedKeeps(db: Db, name: string, j: Job)
    requires Inv(db) && AllowedJob(db, j.(worker := StrArg(name))) && Schedule(db.events, DispatchPlan(j, []))
    ensures Inv(DispatchByName(db, name, j).0)
  {
    hide Inv, Schedule, AllowedJob, DispatchOnce;
    if name in db.registry {
      assert DispatchPlan(j.(worker := StrArg(name)), []) == DispatchPlan(j, []);
      DispatchKeeps(db, j.(worker := StrArg(name)), []);
    }
  }

  lemma AdvanceKeeps(db: Db, r: string, t: string, extra: Py, a: Attempt)
    requires Inv(db) && Id(db, r) && AllowedExtra(db.cfg.nfc, t, extra) && Usable(db.events, a)
    ensures Inv(AppendLifecycle(db, r, t, Extra(db.cfg.nfc, extra), a).0)
  {
    hide Inv, Usable, Plain, AppendLifecycle, Carried, NoIdKeys, Extra;
    var x := Extra(db.cfg.nfc, extra);
    if x.Some? { QuietCarried(db.events, r, t, x.value); }
    AppendKeeps(db, r, t, x, a, None);
  }

  /** Every operation keeps the invariant. */
  lemma ApplyKeeps(db: Db, op: Op)
    requires Inv(db) && Allowed(db, op)
    ensures Inv(Apply(db, op))
  {
    hide Inv, Usable, Schedule, Plain, QuietValue, AllowedJob, AllowedRequest, AllowedExtra, AllowedBracket, AllowedObservations,
      DispatchPlan, CapturePlan, Extra, SubmitIntent, ClaimIntent, ReleaseClaim, CreateRun, AppendLifecycle, DispatchOnce,
      DispatchByName, DispatchWithProvenance, DispatchAndTrack, DispatchWithProvenanceAndTrack, RegisterWorker, Restart,
      CreateSession, AddIntent, WriteArtifact, ValidateOperation;
    match op
    case Submit(r, a) => SubmitKeeps(db, r, a);
    case Claim(i, owner, claim, a) => ClaimIntentKeeps(db, i, owner, claim, a);
    case Release(i, owner, a) => ReleaseClaimKeeps(db, i, owner, a);
    case StartRun(operation, r, a) => CreateKeeps(db, operation, r, a);
    case Advance(r, t, extra, a) => AdvanceKeeps(db, r, t, extra, a);
    case Dispatch(j) => DispatchKeeps(db, j, []);
    case DispatchNamed(name, j) => NamedKeeps(db, name, j);
    case DispatchObserved(j, p, v) => ProvenanceKeeps(db, j, p, v, []);
    case DispatchTracked(j, b) => TrackKeeps(db, j, b);
    case DispatchObservedTracked(j, p, v, b) => ObservedTrackKeeps(db, j, p, v, b);
    case Register(name, a) => RegisterKeeps(db, name, a);
    case NewProcess => RestartKeeps(db);
    case OpenSession(s, a) => CreateSessionKeeps(db, s, a);
    case AddToSession(s, i, a) => AddKeeps(db, s, i, a);
    case Write(i, path, content, artifact, a) => WriteKeeps(db, i, path, content, artifact, a);
    case Validate(operation, a) => ValidateKeeps(db, operation, a);
  }

  // ---------------------------------------------------------------- behaviours

  /** The `n`-th operation is allowed in the state it meets and leads to the next one. */
  ghost predicate StepAt(states: seq<Db>, ops: seq<Op>, n: nat)
    requires n < |ops| && |states| == |ops| + 1
  {
    Allowed(states[n], ops[n]) && states[n+1] == Apply(states[n], ops[n])
  }

  /** A sequence of operations from the empty ledger, with the states it goes through. */
  ghost predicate Behaviour(cfg: Config, states: seq<Db>, ops: seq<Op>) {
    && Sane(cfg) && |states| == |ops| + 1 && states[0] == Empty(cfg)
    && forall n: nat :: n < |ops| ==> StepAt(states, ops, n)
  }

  lemma EmptyInv(cfg: Config)
    requires Sane(cfg)
    ensures Inv(Empty(cfg))
  {
    hide Sane;
  }

  lemma StepKeeps(states: seq<Db>, ops: seq<Op>, n: nat)
    requires n < |ops| && |states| == |ops| + 1 && StepAt(states, ops, n) && Inv(states[n])
    ensures Inv(states[n+1])
  {
    hide Inv, Allowed, Apply;
    ApplyKeeps(states[n], ops[n]);
  }

  /** Every state of every behaviour satisfies the invariant. */
  lemma {:induction false} Reachable(cfg: Config, states: seq<Db>, ops: seq<Op>, k: nat)
    requires Behaviour(cfg, states, ops) && k < |states|
    ensures Inv(states[k])
  {
    hide Inv, Sane, StepAt;
    if k == 0 {
      EmptyInv(cfg);
    } else {
      Reachable(cfg, states, ops, k - 1);
      assert StepAt(states, ops, k - 1);
      StepKeeps(states, ops, k - 1);
    }
  }
}
