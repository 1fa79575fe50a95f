/** The hash-chained, append-only ledger: event rows, hashing, `validate_chain`, and what a
    valid chain proves about its contents. */
module Ledger {
  import opened Strings
  import opened Json
  import opened Like
  import JsonText

  const GENESIS := "0000000000000000000000000000000000000000000000000000000000000000"

  /** The `payload_json` column: its text, with the document it denotes when it is JSON. */
  datatype Payload = Parsed(value: Json, text: string) | Broken(text: string)

  /** The column `append_event` writes for a canonical document. */
  function Written(j: Json): Payload {
    Parsed(j, JsonText.Dumps(j, false))
  }

  /** The column as any reader parses its text. */
  function Column(text: string): Payload {
    match JsonText.Loads(text) case None => Broken(text) case Some(j) => Parsed(j, text)
  }

  /** What was written reads back as what it was written from. */
  lemma WrittenReads(j: Json)
    ensures Column(Written(j).text) == Written(j) && Written(j).text != ""
  {
    JsonText.LoadsDumps(j, false);
    JsonText.Unspaced(j, false, "");
  }

  /** One `ledger_events` row. */
  datatype Event = Event(
    id: string, operationId: Option<string>, parentHash: string, eventType: string, workerId: string,
    payload: Payload, artifactHash: Option<string>, eventHash: string, createdAt: string)

  type History = seq<Event>

  /** The payload as every reader sees it: a dict, or nothing. */
  function Doc(e: Event): map<string, Json> {
    if e.payload.Parsed? && e.payload.value.Obj? then e.payload.value.fields else map[]
  }

  predicate IsDoc(e: Event) {
    e.payload.Parsed? && e.payload.value.Obj?
  }

  /** The row matches `payload_json LIKE '%"k":"s"%'`. */
  predicate Refers(e: Event, k: string, s: string) {
    Matches(Query(k, s), e.payload.text)
  }

  /** At any depth of the payload, key `k` holds the string `s`. */
  predicate Mentioned(e: Event, k: string, s: string) {
    e.payload.Parsed? && Mentions(e.payload.value, k, s)
  }

  /** The lookup finds exactly the events that mention the id. */
  ghost predicate Exact(es: History, k: string, s: string) {
    forall n :: 0 <= n < |es| ==> (Refers(es[n], k, s) <==> Mentioned(es[n], k, s))
  }

  lemma ExactFront(es: History, k: string, s: string)
    requires Exact(es, k, s) && es != []
    ensures Exact(es[..|es|-1], k, s) && (Refers(es[|es|-1], k, s) <==> Mentioned(es[|es|-1], k, s))
  {
    hide Refers, Mentioned;
  }

  /** The `id` column is the primary key. */
  ghost predicate DistinctIds(es: History) {
    forall j, k :: 0 <= j < k < |es| ==> es[j].id != es[k].id
  }

  predicate IdOf(es: History, id: string) {
    exists k :: 0 <= k < |es| && es[k].id == id
  }

  lemma NewId(es: History, n: nat)
    requires DistinctIds(es) && n < |es|
    ensures !IdOf(es[..n], es[n].id)
  {
  }

  lemma IdStays(es: History, e: Event, id: string)
    requires IdOf(es, id)
    ensures IdOf(es + [e], id)
  {
    var k :| 0 <= k < |es| && es[k].id == id;
    assert (es + [e])[k].id == id;
  }

  // ---------------------------------------------------------------- the chain

  /** The six hashed columns. */
  datatype HashInput = HashInput(
    parentHash: string, eventType: string, workerId: string,
    artifactHash: Option<string>, payload: Payload, createdAt: string)

  type Hasher = HashInput -> string

  function Hashed(e: Event): HashInput {
    HashInput(e.parentHash, e.eventType, e.workerId, e.artifactHash, e.payload, e.createdAt)
  }

  function Head(es: History): string {
    if es == [] then GENESIS else es[|es|-1].eventHash
  }

  predicate Linked(hash: Hasher, parent: string, e: Event) {
    e.parentHash == parent && e.eventHash == hash(Hashed(e))
  }

  /** Every event names its predecessor's hash and carries its own. */
  predicate ValidChain(hash: Hasher, es: History) {
    es == [] ||
    (ValidChain(hash, es[..|es|-1]) && Linked(hash, Head(es[..|es|-1]), es[|es|-1]))
  }

  lemma Snoc(es: History, e: Event)
    ensures (es + [e])[..|es|] == es && |es + [e]| == |es| + 1 && (es + [e])[|es|] == e
  {
  }

  lemma Upto(es: History, i: nat)
    requires i < |es|
    ensures es[..i+1] == es[..i] + [es[i]] && es[..i+1][..i] == es[..i] && es[..i+1][i] == es[i]
  {
  }

  lemma Unsnoc(es: History)
    requires es != []
    ensures es == es[..|es|-1] + [es[|es|-1]]
  {
  }

  lemma FrontValid(hash: Hasher, es: History)
    requires ValidChain(hash, es) && es != []
    ensures ValidChain(hash, es[..|es|-1])
  {
  }

  lemma {:induction false} BrokenStaysBroken(hash: Hasher, es: History, n: nat)
    requires n <= |es| && !ValidChain(hash, es[..n])
    ensures !ValidChain(hash, es)
  {
    if n < |es| {
      BrokenStaysBroken(hash, es[..|es|-1], n) by { assert es[..|es|-1][..n] == es[..n]; }
    } else {
      assert es[..n] == es;
    }
  }

  datatype ChainResult =
    | Valid(eventsChecked: nat)
    | ChainBroken(eventsChecked: nat, failedEventId: string)
    | HashMismatch(eventsChecked: nat, failedEventId: string)

  method ValidateChain(hash: Hasher, rows: History) returns (r: ChainResult)
    ensures r.Valid? <==> ValidChain(hash, rows)
    ensures r.Valid? ==> r.eventsChecked == |rows|
    ensures !r.Valid? ==>
      var n := r.eventsChecked;
      && n < |rows| && ValidChain(hash, rows[..n]) && r.failedEventId == rows[n].id
      && (r.ChainBroken? <==> rows[n].parentHash != Head(rows[..n]))
      && (r.HashMismatch? ==> rows[n].eventHash != hash(Hashed(rows[n])))
  {
    var expectedParent := GENESIS;
    for idx := 0 to |rows|
      invariant expectedParent == Head(rows[..idx]) && ValidChain(hash, rows[..idx])
    {
      var row := rows[idx];
      Upto(rows, idx);
      if row.parentHash != expectedParent {
        BrokenStaysBroken(hash, rows, idx + 1);
        return ChainBroken(idx, row.id);
      }
      if hash(Hashed(row)) != row.eventHash {
        BrokenStaysBroken(hash, rows, idx + 1);
        return HashMismatch(idx, row.id);
      }
      expectedParent := row.eventHash;
    }
    assert rows[..|rows|] == rows;
    return Valid(|rows|);
  }

  // ---------------------------------------------------------------- tamper evidence

  /** The text `compute_event_hash` feeds to SHA-256. */
  function HashDocument(nfc: Normalizer, h: HashInput): Json {
    Obj(map[
      "parent_event_hash" := Str(nfc(h.parentHash)),
      "event_type" := Str(nfc(h.eventType)),
      "worker_id" := Str(nfc(h.workerId)),
      "artifact_hash" := match h.artifactHash case None => Null case Some(a) => Str(nfc(a)),
      "payload_json" := Str(h.payload.text),
      "created_at" := Str(nfc(h.createdAt))])
  }

  function HashText(nfc: Normalizer, h: HashInput): string {
    JsonText.Dumps(HashDocument(nfc, h), false)
  }

  type Digest = string -> string
  type Texter = HashInput -> string

  /** The event hash is the digest of the event's text. */
  ghost predicate Digests(hash: Hasher, sha: Digest, text: Texter) {
    forall h :: hash(h) == sha(text(h))
  }

  /** `compute_event_hash` for a given digest and normalization. */
  function EventHasher(sha: Digest, nfc: Normalizer): Hasher {
    (h: HashInput) => sha(HashText(nfc, h))
  }

  /** Digests are ASCII, which normalization leaves alone. */
  ghost predicate DigestsNormal(sha: Digest, nfc: Normalizer) {
    nfc(GENESIS) == GENESIS && forall t :: nfc(sha(t)) == sha(t)
  }

  /** The two rows agree on the six hashed columns, names up to normalization. */
  predicate SameContent(nfc: Normalizer, a: HashInput, b: HashInput) {
    && nfc(a.parentHash) == nfc(b.parentHash)
    && nfc(a.eventType) == nfc(b.eventType)
    && nfc(a.workerId) == nfc(b.workerId)
    && (a.artifactHash.Some? <==> b.artifactHash.Some?)
    && (a.artifactHash.Some? ==> nfc(a.artifactHash.value) == nfc(b.artifactHash.value))
    && a.payload.text == b.payload.text
    && nfc(a.createdAt) == nfc(b.createdAt)
  }

  lemma DocumentFields(nfc: Normalizer, h: HashInput)
    ensures var m := HashDocument(nfc, h).fields;
      && m["parent_event_hash"] == Str(nfc(h.parentHash)) && m["event_type"] == Str(nfc(h.eventType))
      && m["worker_id"] == Str(nfc(h.workerId)) && m["created_at"] == Str(nfc(h.createdAt))
      && m["payload_json"] == Str(h.payload.text)
      && m["artifact_hash"] == match h.artifactHash case None => Null case Some(a) => Str(nfc(a))
  {
  }

  /** The hashed text determines the hashed content. */
  lemma TextDeterminesContent(nfc: Normalizer, a: HashInput, b: HashInput)
    requires HashText(nfc, a) == HashText(nfc, b)
    ensures SameContent(nfc, a, b)
  {
    JsonText.DumpsInjective(HashDocument(nfc, a), HashDocument(nfc, b), false);
    DocumentFields(nfc, a);
    DocumentFields(nfc, b);
  }

  /** Two hashed texts of the two ledgers differ and have one digest. */
  ghost predicate Collision(sha: Digest, text: Texter, xs: History, ys: History) {
    exists x, y :: x in xs && y in ys && text(Hashed(x)) != text(Hashed(y))
                && sha(text(Hashed(x))) == sha(text(Hashed(y)))
  }

  /** A hashed text of the ledger has the genesis hash for digest. */
  ghost predicate GenesisPreimage(sha: Digest, text: Texter, xs: History) {
    exists x :: x in xs && sha(text(Hashed(x))) == GENESIS
  }

  ghost predicate Agree(nfc: Normalizer, xs: History, ys: History) {
    |xs| == |ys| && forall i :: 0 <= i < |xs| ==> SameContent(nfc, Hashed(xs[i]), Hashed(ys[i]))
  }

  lemma HeadHashed(hash: Hasher, sha: Digest, text: Texter, es: History)
    requires ValidChain(hash, es) && Digests(hash, sha, text) && es != []
    ensures Head(es) == sha(text(Hashed(es[|es|-1])))
  {
  }

  lemma HeadNormal(hash: Hasher, sha: Digest, text: Texter, nfc: Normalizer, es: History)
    requires ValidChain(hash, es) && Digests(hash, sha, text) && DigestsNormal(sha, nfc)
    ensures nfc(Head(es)) == Head(es)
  {
    if es != [] { HeadHashed(hash, sha, text, es); }
  }

  /** Texts determine the content they are made from. */
  ghost predicate Determining(text: Texter, nfc: Normalizer) {
    forall a, b :: text(a) == text(b) ==> SameContent(nfc, a, b)
  }

  lemma Determined(text: Texter, nfc: Normalizer, a: HashInput, b: HashInput)
    requires Determining(text, nfc) && text(a) == text(b)
    ensures SameContent(nfc, a, b)
  {
  }

  lemma Collide(sha: Digest, text: Texter, xs: History, ys: History, x: Event, y: Event)
    requires x in xs && y in ys && text(Hashed(x)) != text(Hashed(y))
    requires sha(text(Hashed(x))) == sha(text(Hashed(y)))
    ensures Collision(sha, text, xs, ys)
  {
  }

  /** Equal heads: the last events agree and so do the heads before them, or the digest collides. */
  lemma LastAgree(hash: Hasher, sha: Digest, text: Texter, nfc: Normalizer, xs: History, ys: History)
    requires ValidChain(hash, xs) && ValidChain(hash, ys)
    requires Digests(hash, sha, text) && DigestsNormal(sha, nfc) && Determining(text, nfc)
    requires xs != [] && ys != [] && Head(xs) == Head(ys)
    ensures Collision(sha, text, xs, ys) ||
      (SameContent(nfc, Hashed(xs[|xs|-1]), Hashed(ys[|ys|-1])) && Head(xs[..|xs|-1]) == Head(ys[..|ys|-1]))
  {
    hide Collision, Digests, DigestsNormal, Determining;
    var x, y := xs[|xs|-1], ys[|ys|-1];
    HeadHashed(hash, sha, text, xs);
    HeadHashed(hash, sha, text, ys);
    if text(Hashed(x)) == text(Hashed(y)) {
      HeadNormal(hash, sha, text, nfc, xs[..|xs|-1]);
      HeadNormal(hash, sha, text, nfc, ys[..|ys|-1]);
      Determined(text, nfc, Hashed(x), Hashed(y));
    } else {
      Collide(sha, text, xs, ys, x, y);
    }
  }

  lemma EmptyAgree(hash: Hasher, sha: Digest, text: Texter, nfc: Normalizer, xs: History, ys: History)
    requires ValidChain(hash, xs) && ValidChain(hash, ys) && Digests(hash, sha, text)
    requires (xs == [] || ys == []) && Head(xs) == Head(ys)
    ensures Verdict(sha, text, nfc, xs, ys)
  {
    hide SameContent;
    if xs != [] { HeadHashed(hash, sha, text, xs); assert xs[|xs|-1] in xs; }
    if ys != [] { HeadHashed(hash, sha, text, ys); assert ys[|ys|-1] in ys; }
  }

  ghost predicate Verdict(sha: Digest, text: Texter, nfc: Normalizer, xs: History, ys: History) {
    || Agree(nfc, xs, ys) || Collision(sha, text, xs, ys)
    || GenesisPreimage(sha, text, xs) || GenesisPreimage(sha, text, ys)
  }

  lemma Collided(sha: Digest, text: Texter, nfc: Normalizer, xs: History, ys: History)
    requires Collision(sha, text, xs, ys)
    ensures Verdict(sha, text, nfc, xs, ys)
  {
  }

  /** The argument for any text that determines the content it is made from. */
  lemma {:induction false} ChainDetermines(
    hash: Hasher, sha: Digest, text: Texter, nfc: Normalizer, xs: History, ys: History)
    requires ValidChain(hash, xs) && ValidChain(hash, ys)
    requires Digests(hash, sha, text) && DigestsNormal(sha, nfc) && Determining(text, nfc)
    requires Head(xs) == Head(ys)
    ensures Verdict(sha, text, nfc, xs, ys)
    decreases |xs|
  {
    hide *;
    if xs == [] || ys == [] {
      EmptyAgree(hash, sha, text, nfc, xs, ys);
    } else {
      LastAgree(hash, sha, text, nfc, xs, ys);
      if Collision(sha, text, xs, ys) {
        Collided(sha, text, nfc, xs, ys);
      } else {
        FrontValid(hash, xs);
        FrontValid(hash, ys);
        ChainDetermines(hash, sha, text, nfc, xs[..|xs|-1], ys[..|ys|-1]);
        Widen(sha, text, nfc, xs[..|xs|-1], ys[..|ys|-1], xs[|xs|-1], ys[|ys|-1]);
        Unsnoc(xs);
        Unsnoc(ys);
      }
    }
  }

  /** What the shorter ledgers show, the longer ones show. */
  lemma Widen(sha: Digest, text: Texter, nfc: Normalizer, xs: History, ys: History, x: Event, y: Event)
    requires SameContent(nfc, Hashed(x), Hashed(y))
    requires Verdict(sha, text, nfc, xs, ys)
    ensures Verdict(sha, text, nfc, xs + [x], ys + [y])
  {
    if Collision(sha, text, xs, ys) {
      var a, b :| a in xs && b in ys && text(Hashed(a)) != text(Hashed(b))
               && sha(text(Hashed(a))) == sha(text(Hashed(b)));
      assert a in xs + [x] && b in ys + [y];
    }
    if GenesisPreimage(sha, text, xs) {
      var a :| a in xs && sha(text(Hashed(a))) == GENESIS;
      assert a in xs + [x];
    }
    if GenesisPreimage(sha, text, ys) {
      var b :| b in ys && sha(text(Hashed(b))) == GENESIS;
      assert b in ys + [y];
    }
  }

  /** Tamper evidence: two valid ledgers with one head either agree event by event, or exhibit a
      collision of the digest or a text whose digest is the genesis hash. */
  lemma TamperEvidence(sha: Digest, nfc: Normalizer, xs: History, ys: History)
    requires ValidChain(EventHasher(sha, nfc), xs) && ValidChain(EventHasher(sha, nfc), ys)
    requires DigestsNormal(sha, nfc)
    requires Head(xs) == Head(ys)
    ensures Verdict(sha, (h: HashInput) => HashText(nfc, h), nfc, xs, ys)
  {
    var text := (h: HashInput) => HashText(nfc, h);
    forall a, b | text(a) == text(b) ensures SameContent(nfc, a, b) {
      TextDeterminesContent(nfc, a, b);
    }
    ChainDetermines(EventHasher(sha, nfc), sha, text, nfc, xs, ys);
  }
}
