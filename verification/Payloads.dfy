/** The payload document of every event the kernels append, and which ids a lookup finds in it. */
module Payloads {
  import opened Like
  import opened Json

  type Fields = map<string, Json>

  // ---------------------------------------------------------------- documents

  function Submission(i: string, intentType: string, payload: Json, status: string, error: Option<string>): Fields {
    map["intent_id" := Str(i), "intent_type" := Str(intentType), "payload" := payload,
        "status" := Str(status), "error_type" := OrNull(error)]
  }

  function Unrepresentable(repr: string): Json {
    Obj(map["unrepresentable_payload_repr" := Str(repr)])
  }

  function Claimed(i: string, worker: string): Fields {
    map["intent_id" := Str(i), "status" := Str("RUNNING"), "worker_name" := Str(worker)]
  }

  function Outcome(i: string, status: string, worker: string, error: Option<string>, message: string): Fields {
    map["intent_id" := Str(i), "status" := Str(status), "worker_name" := Str(worker),
        "error_type" := OrNull(error), "error_message" := Str(message)]
  }

  function RunCreated(r: string, op: string): Fields {
    map["run_id" := Str(r), "operation_id" := Str(op)]
  }

  /** `run_id` always wins on key collision. */
  function RunStep(r: string, extra: Fields): Fields {
    extra["run_id" := Str(r)]
  }

  function WithArtifact(artifact: Json): Fields {
    map["artifact" := artifact]
  }

  /** The snapshots taken before the run, when provenance was asked for. */
  datatype Snapshots = NoSnapshots | Snapshots(provenance: string, environment: string)

  function ResultContent(
    i: string, worker: string, inputs: Json, outputs: Json, success: bool, error: Option<string>, message: string,
    s: Snapshots): Fields
  {
    var content := map[
      "intent_id" := Str(i), "worker_name" := Str(worker), "inputs" := inputs, "outputs" := outputs,
      "worker_success" := Bool(success), "error_type" := OrNull(error), "error_message" := Str(message)];
    match s
    case NoSnapshots => content
    case Snapshots(p, v) => content["provenance_snapshot_id" := Str(p)]["environment_snapshot_id" := Str(v)]
  }

  function Artifact(kind: string, content: Fields): Json {
    Obj(map["type" := Str(kind), "content" := Obj(content)])
  }

  function ClaimArtifact(claim: Option<string>, i: string, owner: string, action: string, error: Option<string>): Json {
    Artifact("claim", map["claim_id" := OrNull(claim), "intent_id" := Str(i), "owner_id" := Str(owner),
                          "action" := Str(action), "error_type" := OrNull(error)])
  }

  function ClaimChange(claim: string, i: string, owner: string, action: string): Fields {
    map["claim_id" := Str(claim), "intent_id" := Str(i), "owner_id" := Str(owner),
        "artifact" := ClaimArtifact(Some(claim), i, owner, action, None)]
  }

  function ClaimRejected(i: string, owner: string, error: string): Fields {
    map["intent_id" := Str(i), "owner_id" := Str(owner),
        "artifact" := ClaimArtifact(None, i, owner, "REJECTED", Some(error))]
  }

  function ReleaseRejected(i: string, owner: string, claim: Option<string>, error: string): Fields {
    map["intent_id" := Str(i), "owner_id" := Str(owner), "claim_id" := OrNull(claim),
        "artifact" := ClaimArtifact(claim, i, owner, "REJECTED", Some(error))]
  }

  function Registration(worker: string, status: string, error: Option<string>): Fields {
    map["worker_name" := Str(worker), "status" := Str(status), "error_type" := OrNull(error)]
  }

  function SessionArtifact(s: string, i: Option<string>, error: Option<string>): Json {
    Artifact("session_membership", map["session_id" := Str(s), "intent_id" := OrNull(i), "error_type" := OrNull(error)])
  }

  function SessionCreated(s: string): Fields {
    map["session_id" := Str(s), "artifact" := SessionArtifact(s, None, None)]
  }

  function SessionMember(s: string, i: string, error: Option<string>): Fields {
    map["session_id" := Str(s), "intent_id" := Str(i), "error_type" := OrNull(error),
        "artifact" := SessionArtifact(s, Some(i), error)]
  }

  function FileWritten(a: string, i: string, path: string, sha256: string, size: int): Fields {
    map["type" := Str("artifact_file"),
        "content" := Obj(map["artifact_id" := Str(a), "intent_id" := Str(i), "relative_path" := Str(path),
                             "sha256" := Str(sha256), "size_bytes" := Int(size)])]
  }

  function FileRejected(i: string, path: Json, error: string): Fields {
    map["intent_id" := Str(i), "relative_path" := path, "error_type" := Str(error)]
  }

  function Validated(op: string): Fields {
    map["operation_id" := Str(op)]
  }

  /** A provenance or environment snapshot; `rest` is what was observed. */
  function Snapshot(kind: string, snapshot: string, i: string, rest: Fields): Fields {
    map["type" := Str(kind), "content" := Obj(rest["snapshot_id" := Str(snapshot)]["intent_id" := Str(i)])]
  }

  // ---------------------------------------------------------------- what a lookup finds

  /** The lookup of key `k` finds the id `x` in the document and no other. */
  ghost predicate Only(m: Fields, k: string, x: Option<string>) {
    forall s :: Mentions(Obj(m), k, s) <==> x == Some(s)
  }

  /** The run, intent and session ids of the document, under straight keys. */
  ghost predicate Finds(m: Fields, run: Option<string>, intent: Option<string>, session: Option<string>) {
    StraightKeys(Obj(m)) && Only(m, "run_id", run) && Only(m, "intent_id", intent) && Only(m, "session_id", session)
  }

  /** The keys the kernels write. */
  predicate Own(x: string) {
    x in {
      "intent_id", "run_id", "session_id", "intent_type", "payload", "status", "error_type", "error_message",
      "unrepresentable_payload_repr", "worker_name", "operation_id", "artifact", "inputs", "outputs", "worker_success",
      "provenance_snapshot_id", "environment_snapshot_id", "type", "content", "claim_id", "owner_id", "action",
      "artifact_id", "relative_path", "sha256", "size_bytes", "snapshot_id"}
  }

  /** Too short, another ending, or no quotation mark where `k` would have to begin. */
  predicate Away(x: string, k: string) {
    |x| < |k| || |x| < 2 || Fold(x[|x|-1]) != 'd' || Fold(x[|x|-2]) != 'i' || (|x| > |k| && x[|x|-|k|-1] != '"')
  }

  lemma TakenNotAway(x: string, k: string)
    requires Reaches(x, k) && IsIdKey(k)
    ensures !Away(x, k)
  {
    var u := x[|x|-|k|..];
    assert |x| == |k| ==> u == x;
    assert Fits(u, k) && u[|u|-1] == x[|x|-1] && u[|u|-2] == x[|x|-2];
    assert k[|k|-1] == 'd' && k[|k|-2] == 'i';
    assert Fold(k[|k|-1]) == Fold(u[|k|-1]) && Fold(k[|k|-2]) == Fold(u[|k|-2]);
  }

  /** None of the kernels' keys is taken for another. */
  lemma OwnStraight(x: string)
    requires Own(x)
    ensures Straight(x)
  {
    forall k | IsIdKey(k) && Reaches(x, k) ensures x == k {
      OwnAway(x, k);
      TakenNotAway(x, k);
    }
  }

  lemma OwnNotTaken(x: string, k: string)
    requires Own(x) && IsIdKey(k) && x != k
    ensures !Reaches(x, k)
  {
    OwnStraight(x);
    hide Own, Reaches, IsIdKey;
  }

  lemma OwnAway(x: string, k: string)
    requires Own(x) && IsIdKey(k)
    ensures x == k || Away(x, k)
  {
  }

  predicate Scalar(j: Json) {
    !j.Obj? && !j.Arr?
  }

  /** The value holds no id the lookups could find. */
  ghost predicate Silent(j: Json) {
    Scalar(j) || NoIdKeys(j)
  }

  lemma SilentMentions(j: Json, k: string, s: string)
    requires Silent(j) && IsIdKey(k)
    ensures !Mentions(j, k, s)
  {
    if NoIdKeys(j) { NoKeyNoMention(j, k, s); }
  }

  /** What the top level holds is all there is. */
  lemma OnlyTop(m: Fields, k: string)
    requires IsIdKey(k) && forall x :: x in m ==> Silent(m[x])
    ensures Only(m, k, Text(m, k))
  {
    hide Silent;
    forall s ensures Mentions(Obj(m), k, s) <==> Text(m, k) == Some(s) {
      forall x | x in m ensures !Mentions(m[x], k, s) { SilentMentions(m[x], k, s); }
    }
  }

  lemma SilentStraight(j: Json)
    requires Silent(j)
    ensures StraightKeys(j)
  {
    hide NoIdKeys;
    if NoIdKeys(j) { NoKeyStraight(j); }
  }

  /** Every key is one of the kernels' or taken for none of theirs. */
  lemma TopStraight(m: Fields)
    requires forall x :: x in m ==> (Own(x) || Straight(x)) && StraightKeys(m[x])
    ensures StraightKeys(Obj(m))
  {
    hide Straight;
    forall x | x in m && Own(x) ensures Straight(x) { OwnStraight(x); }
  }

  lemma TopFinds(m: Fields)
    requires forall x :: x in m ==> (Own(x) || Straight(x)) && Silent(m[x])
    ensures Finds(m, Text(m, "run_id"), Text(m, "intent_id"), Text(m, "session_id"))
  {
    hide Silent, Only, Straight;
    forall x | x in m ensures StraightKeys(m[x]) { SilentStraight(m[x]); }
    TopStraight(m);
    OnlyTop(m, "run_id");
    OnlyTop(m, "intent_id");
    OnlyTop(m, "session_id");
  }

  /** One sub-document holds the id; the top level holds the same or none. */
  lemma OnlyBelow(m: Fields, at: string, k: string, y: Option<string>)
    requires IsIdKey(k) && at in m && m[at].Obj? && Only(m[at].fields, k, y)
    requires forall x :: x in m && x != at ==> Silent(m[x])
    requires k in m ==> OrNull(y) == m[k]
    ensures Only(m, k, y)
  {
    hide Silent;
    forall s ensures Mentions(Obj(m), k, s) <==> y == Some(s) {
      forall x | x in m && x != at ensures !Mentions(m[x], k, s) { SilentMentions(m[x], k, s); }
      assert Mentions(m[at], k, s) <==> y == Some(s) by { assert m[at] == Obj(m[at].fields); }
    }
  }

  lemma BelowFinds(m: Fields, at: string, run: Option<string>, intent: Option<string>, session: Option<string>)
    requires at in m && m[at].Obj? && Finds(m[at].fields, run, intent, session)
    requires (forall x :: x in m && x != at ==> Silent(m[x])) && forall x :: x in m ==> Own(x)
    requires "run_id" in m ==> OrNull(run) == m["run_id"]
    requires "intent_id" in m ==> OrNull(intent) == m["intent_id"]
    requires "session_id" in m ==> OrNull(session) == m["session_id"]
    ensures Finds(m, run, intent, session)
  {
    hide Silent, Only, StraightKeys, Straight;
    forall x | x in m ensures StraightKeys(m[x]) {
      if x == at { assert m[at] == Obj(m[at].fields); } else { SilentStraight(m[x]); }
    }
    TopStraight(m);
    OnlyBelow(m, at, "run_id", run);
    OnlyBelow(m, at, "intent_id", intent);
    OnlyBelow(m, at, "session_id", session);
  }

  lemma ArtifactFinds(kind: string, content: Fields, run: Option<string>, intent: Option<string>, session: Option<string>)
    requires Finds(content, run, intent, session)
    ensures Finds(Artifact(kind, content).fields, run, intent, session)
  {
    BelowFinds(Artifact(kind, content).fields, "content", run, intent, session);
  }

  lemma SubmissionFinds(i: string, intentType: string, payload: Json, status: string, error: Option<string>)
    requires NoIdKeys(payload)
    ensures Finds(Submission(i, intentType, payload, status, error), None, Some(i), None)
  {
    TopFinds(Submission(i, intentType, payload, status, error));
  }

  lemma ClaimedFinds(i: string, worker: string)
    ensures Finds(Claimed(i, worker), None, Some(i), None)
  {
    TopFinds(Claimed(i, worker));
  }

  lemma OutcomeFinds(i: string, status: string, worker: string, error: Option<string>, message: string)
    ensures Finds(Outcome(i, status, worker, error, message), None, Some(i), None)
  {
    TopFinds(Outcome(i, status, worker, error, message));
  }

  lemma RunFinds(r: string, op: string)
    ensures Finds(RunCreated(r, op), Some(r), None, None)
  {
    TopFinds(RunCreated(r, op));
  }

  lemma QuietMembers(extra: Fields)
    requires NoIdKeys(Obj(extra))
    ensures forall x :: x in extra ==> Straight(x) && NoIdKeys(extra[x])
  {
    NoKeyStraight(Obj(extra));
    hide Reaches, Straight;
  }

  lemma StepFinds(r: string, extra: Fields)
    requires NoIdKeys(Obj(extra))
    ensures Finds(RunStep(r, extra), Some(r), None, None)
  {
    NoOwnIds(extra);
    QuietMembers(extra);
    hide NoIdKeys, Straight, Finds;
    TopFinds(RunStep(r, extra));
  }

  lemma ContentFinds(
    i: string, worker: string, inputs: Json, outputs: Json, success: bool, error: Option<string>, message: string, s: Snapshots)
    requires NoIdKeys(inputs) && NoIdKeys(outputs)
    ensures Finds(ResultContent(i, worker, inputs, outputs, success, error, message, s), None, Some(i), None)
  {
    hide Finds, NoIdKeys, Straight;
    var content := ResultContent(i, worker, inputs, outputs, success, error, message, NoSnapshots);
    TopFinds(content);
    if s.Snapshots? {
      hide ResultContent, Own;
      ContentSnapshots(i, worker, inputs, outputs, success, error, message, s);
      var once := content["provenance_snapshot_id" := Str(s.provenance)];
      WithText(content, "provenance_snapshot_id", s.provenance, None, Some(i), None);
      WithText(once, "environment_snapshot_id", s.environment, None, Some(i), None);
    }
  }

  lemma ContentSnapshots(
    i: string, worker: string, inputs: Json, outputs: Json, success: bool, error: Option<string>, message: string, s: Snapshots)
    requires s.Snapshots?
    ensures ResultContent(i, worker, inputs, outputs, success, error, message, s) ==
      ResultContent(i, worker, inputs, outputs, success, error, message, NoSnapshots)
        ["provenance_snapshot_id" := Str(s.provenance)]["environment_snapshot_id" := Str(s.environment)]
    ensures "provenance_snapshot_id" !in ResultContent(i, worker, inputs, outputs, success, error, message, NoSnapshots)
    ensures "environment_snapshot_id" !in ResultContent(i, worker, inputs, outputs, success, error, message, NoSnapshots)
    ensures Own("provenance_snapshot_id") && Own("environment_snapshot_id")
  {
  }

  /** A text under one more of the kernels' keys. */
  lemma WithText(m: Fields, x: string, v: string, run: Option<string>, intent: Option<string>, session: Option<string>)
    requires Finds(m, run, intent, session) && Own(x) && !IsIdKey(x) && x !in m
    ensures Finds(m[x := Str(v)], run, intent, session)
  {
    hide Only, StraightKeys, Own;
    StraightMore(m, x, v);
    OnlyMore(m, x, v, "run_id", run);
    OnlyMore(m, x, v, "intent_id", intent);
    OnlyMore(m, x, v, "session_id", session);
  }

  lemma StraightMore(m: Fields, x: string, v: string)
    requires StraightKeys(Obj(m)) && Own(x)
    ensures StraightKeys(Obj(m[x := Str(v)]))
  {
    OwnStraight(x);
    assert StraightKeys(Str(v));
    hide Own, Straight;
  }

  lemma OnlyMore(m: Fields, x: string, v: string, k: string, y: Option<string>)
    requires Only(m, k, y) && x !in m && x != k
    ensures Only(m[x := Str(v)], k, y)
  {
    forall s ensures Mentions(Obj(m[x := Str(v)]), k, s) <==> Mentions(Obj(m), k, s) { MentionsSame(m, x, v, k, s); }
    hide Mentions;
  }

  lemma MentionsSame(m: Fields, x: string, v: string, k: string, s: string)
    requires x !in m && x != k
    ensures Mentions(Obj(m[x := Str(v)]), k, s) <==> Mentions(Obj(m), k, s)
  {
    var more := m[x := Str(v)];
    assert more[x] == Str(v) && !Mentions(Str(v), k, s);
    if Mentions(Obj(m), k, s) && !(k in m && m[k] == Str(s)) {
      var y :| y in m && Mentions(m[y], k, s);
      assert more[y] == m[y] && y in more;
    }
  }

  /** The artifact event of a dispatch finds its run and its intent. */
  lemma ResultFinds(
    r: string, i: string, worker: string, inputs: Json, outputs: Json, success: bool, error: Option<string>,
    message: string, s: Snapshots)
    requires NoIdKeys(inputs) && NoIdKeys(outputs)
    ensures Finds(RunStep(r, WithArtifact(Artifact("worker_result",
                  ResultContent(i, worker, inputs, outputs, success, error, message, s)))), Some(r), Some(i), None)
  {
    hide Finds, NoIdKeys, ResultContent;
    var content := ResultContent(i, worker, inputs, outputs, success, error, message, s);
    ContentFinds(i, worker, inputs, outputs, success, error, message, s);
    ArtifactFinds("worker_result", content, None, Some(i), None);
    var m := RunStep(r, WithArtifact(Artifact("worker_result", content)));
    WithRun(m, "artifact", r, Some(i), None);
  }

  /** A run id on top of a document that names no run. */
  lemma WithRun(m: Fields, at: string, r: string, intent: Option<string>, session: Option<string>)
    requires at in m && m[at].Obj? && Finds(m[at].fields, None, intent, session) && at != "run_id"
    requires m.Keys == {at, "run_id"} && m["run_id"] == Str(r) && !IsIdKey(at) && Own(at) && Own("run_id")
    ensures Finds(m, Some(r), intent, session)
  {
    hide Only, StraightKeys, Straight;
    assert m[at] == Obj(m[at].fields);
    SilentStraight(m["run_id"]);
    TopStraight(m);
    OnlyBelow(m, at, "intent_id", intent);
    OnlyBelow(m, at, "session_id", session);
    OnlyRun(m, at, r);
  }

  lemma OnlyRun(m: Fields, at: string, r: string)
    requires at in m && m[at].Obj? && Only(m[at].fields, "run_id", None) && at != "run_id"
    requires m.Keys == {at, "run_id"} && m["run_id"] == Str(r)
    ensures Only(m, "run_id", Some(r))
  {
    forall s ensures Mentions(Obj(m), "run_id", s) <==> s == r {
      assert !Mentions(m[at], "run_id", s) by { assert m[at] == Obj(m[at].fields); }
    }
  }

  lemma ClaimArtifactFinds(claim: Option<string>, i: string, owner: string, action: string, error: Option<string>)
    ensures ClaimArtifact(claim, i, owner, action, error).Obj?
    ensures Finds(ClaimArtifact(claim, i, owner, action, error).fields, None, Some(i), None)
  {
    hide Finds;
    var content := map["claim_id" := OrNull(claim), "intent_id" := Str(i), "owner_id" := Str(owner),
                       "action" := Str(action), "error_type" := OrNull(error)];
    TopFinds(content);
    ArtifactFinds("claim", content, None, Some(i), None);
  }

  lemma ClaimFinds(claim: string, i: string, owner: string, action: string)
    ensures Finds(ClaimChange(claim, i, owner, action), None, Some(i), None)
  {
    hide Finds, ClaimArtifact;
    ClaimArtifactFinds(Some(claim), i, owner, action, None);
    BelowFinds(ClaimChange(claim, i, owner, action), "artifact", None, Some(i), None);
  }

  lemma ClaimRejectedFinds(i: string, owner: string, error: string)
    ensures Finds(ClaimRejected(i, owner, error), None, Some(i), None)
  {
    hide Finds, ClaimArtifact;
    ClaimArtifactFinds(None, i, owner, "REJECTED", Some(error));
    BelowFinds(ClaimRejected(i, owner, error), "artifact", None, Some(i), None);
  }

  lemma ReleaseRejectedFinds(i: string, owner: string, claim: Option<string>, error: string)
    ensures Finds(ReleaseRejected(i, owner, claim, error), None, Some(i), None)
  {
    hide Finds, ClaimArtifact;
    ClaimArtifactFinds(claim, i, owner, "REJECTED", Some(error));
    BelowFinds(ReleaseRejected(i, owner, claim, error), "artifact", None, Some(i), None);
  }

  lemma RegistrationFinds(worker: string, status: string, error: Option<string>)
    ensures Finds(Registration(worker, status, error), None, None, None)
  {
    TopFinds(Registration(worker, status, error));
  }

  lemma SessionArtifactFinds(s: string, i: Option<string>, error: Option<string>)
    ensures SessionArtifact(s, i, error).Obj?
    ensures Finds(SessionArtifact(s, i, error).fields, None, i, Some(s))
  {
    hide Finds;
    var content := map["session_id" := Str(s), "intent_id" := OrNull(i), "error_type" := OrNull(error)];
    TopFinds(content);
    ArtifactFinds("session_membership", content, None, i, Some(s));
  }

  lemma SessionFinds(s: string)
    ensures Finds(SessionCreated(s), None, None, Some(s))
  {
    hide Finds, SessionArtifact;
    SessionArtifactFinds(s, None, None);
    BelowFinds(SessionCreated(s), "artifact", None, None, Some(s));
  }

  lemma MemberFinds(s: string, i: string, error: Option<string>)
    ensures Finds(SessionMember(s, i, error), None, Some(i), Some(s))
  {
    hide Finds, SessionArtifact;
    SessionArtifactFinds(s, Some(i), error);
    BelowFinds(SessionMember(s, i, error), "artifact", None, Some(i), Some(s));
  }

  lemma FileFinds(a: string, i: string, path: string, sha256: string, size: int)
    ensures Finds(FileWritten(a, i, path, sha256, size), None, Some(i), None)
  {
    hide Finds;
    var m := FileWritten(a, i, path, sha256, size);
    TopFinds(m["content"].fields);
    BelowFinds(m, "content", None, Some(i), None);
  }

  lemma FileRejectedFinds(i: string, path: Json, error: string)
    requires NoIdKeys(path)
    ensures Finds(FileRejected(i, path, error), None, Some(i), None)
  {
    TopFinds(FileRejected(i, path, error));
  }

  lemma ValidatedFinds(op: string)
    ensures Finds(Validated(op), None, None, None)
  {
    TopFinds(Validated(op));
  }

  lemma SnapshotFinds(kind: string, snapshot: string, i: string, rest: Fields)
    requires NoIdKeys(Obj(rest))
    ensures Finds(Snapshot(kind, snapshot, i, rest), None, Some(i), None)
  {
    hide Finds, NoIdKeys;
    var content := rest["snapshot_id" := Str(snapshot)]["intent_id" := Str(i)];
    SeenFinds(snapshot, i, rest);
    BelowFinds(Snapshot(kind, snapshot, i, rest), "content", None, Some(i), None);
  }

  lemma SeenFinds(snapshot: string, i: string, rest: Fields)
    requires NoIdKeys(Obj(rest))
    ensures Finds(rest["snapshot_id" := Str(snapshot)]["intent_id" := Str(i)], None, Some(i), None)
  {
    NoOwnIds(rest);
    QuietMembers(rest);
    hide NoIdKeys, Straight, Finds;
    TopFinds(rest["snapshot_id" := Str(snapshot)]["intent_id" := Str(i)]);
  }

  lemma NoOwnIds(rest: Fields)
    requires NoIdKeys(Obj(rest))
    ensures "intent_id" !in rest && "run_id" !in rest && "session_id" !in rest
  {
    SelfReached("intent_id");
    SelfReached("run_id");
    SelfReached("session_id");
    hide Reaches;
  }
}
