/** The artifact builders of the worker, git and shell adapters: they halve their largest fields
    until the canonical artifact fits. */
module Truncation {
  import opened Json
  import JsonText

  const MAX_ARTIFACT_BYTES := 64000

  function Utf8Length(s: string): nat {
    if s == "" then 0
    else
      var n := s[|s|-1] as int;
      Utf8Length(s[..|s|-1]) + if n < 0x80 then 1 else if n < 0x800 then 2 else if n < 0x10000 then 3 else 4
  }

  /** The bytes of a character in UTF-8 (section 3 of RFC 3629): six bits each after the first. */
  function Encoded(c: char): seq<int> {
    var n := c as int;
    var (a, b, d) := (n / 0x40, n / 0x40 / 0x40, n / 0x40 / 0x40 / 0x40);
    if n < 0x80 then [n]
    else if n < 0x800 then [0xC0 + a, 0x80 + n % 0x40]
    else if n < 0x10000 then [0xE0 + b, 0x80 + a % 0x40, 0x80 + n % 0x40]
    else [0xF0 + d, 0x80 + b % 0x40, 0x80 + a % 0x40, 0x80 + n % 0x40]
  }

  /** `s.encode("utf-8")`. */
  function Utf8(s: string): seq<int> {
    if s == "" then [] else Utf8(s[..|s|-1]) + Encoded(s[|s|-1])
  }

  /** The code point that bytes stand for. */
  function Decoded(bs: seq<int>): int {
    if |bs| == 1 then bs[0]
    else if |bs| == 2 then (bs[0] - 0xC0) * 0x40 + (bs[1] - 0x80)
    else if |bs| == 3 then ((bs[0] - 0xE0) * 0x40 + (bs[1] - 0x80)) * 0x40 + (bs[2] - 0x80)
    else if |bs| == 4 then (((bs[0] - 0xF0) * 0x40 + (bs[1] - 0x80)) * 0x40 + (bs[2] - 0x80)) * 0x40 + (bs[3] - 0x80)
    else -1
  }

  /** The bytes of a character give it back, and its first byte tells how many there are. */
  lemma EncodedDecodes(c: char)
    ensures var bs := Encoded(c);
      && Decoded(bs) == c as int && 1 <= |bs| <= 4 && (forall k :: 0 <= k < |bs| ==> 0 <= bs[k] < 0x100)
      && |bs| == if bs[0] < 0x80 then 1 else if bs[0] < 0xE0 then 2 else if bs[0] < 0xF0 then 3 else 4
  {
    var n := c as int;
    var a := n / 0x40;
    var b := a / 0x40;
    assert n == a * 0x40 + n % 0x40 && a == b * 0x40 + a % 0x40 && b == b / 0x40 * 0x40 + b % 0x40;
  }

  /** The length is that of the encoding. */
  lemma {:induction false} LengthIsUtf8(s: string)
    ensures Utf8Length(s) == |Utf8(s)|
  {
    if s != "" { LengthIsUtf8(s[..|s|-1]); }
  }

  /** The artifact has no canonical form, or one that fits. */
  predicate Settled(nfc: Normalizer, artifact: Py) {
    match Canonical(nfc, artifact)
    case None => true
    case Some(j) => Utf8Length(JsonText.Dumps(j, false)) <= MAX_ARTIFACT_BYTES
  }

  function Half(s: string): string {
    s[..|s| / 2]
  }

  /** `n.bit_length()`. */
  function BitLength(n: nat): nat {
    if n == 0 then 0 else 1 + BitLength(n / 2)
  }

  function Text(k: string, s: string): Entry {
    Entry(PStr(k), PStr(s))
  }

  function Maybe(k: string, o: Option<string>): Entry {
    Entry(PStr(k), match o case None => PNone case Some(s) => PStr(s))
  }

  function Flag(truncated: bool): seq<Entry> {
    if truncated then [Entry(PStr("truncated"), PBool(true))] else []
  }

  function Typed(kind: string, content: seq<Entry>): Py {
    PDict([Text("type", kind), Entry(PStr("content"), PDict(content))])
  }

  /** What a builder returns: the artifact, and how many it canonicalized on the way. */
  datatype Built = Built(artifact: Py, passes: nat) | Raised

  // ---------------------------------------------------------------- two texts, shell and git

  /** The two texts that may be shortened. */
  datatype Pair = Pair(first: string, second: string)

  type Shortener = Pair -> Pair

  /** Halve the first text while it is not empty, then the second. */
  function FirstThenSecond(p: Pair): Pair {
    if p.first != "" then Pair(Half(p.first), p.second)
    else if p.second != "" then Pair(p.first, Half(p.second))
    else p
  }

  /** Halve the longer text, the first if they are equally long. */
  function Longer(p: Pair): Pair {
    if |p.first| >= |p.second| && p.first != "" then Pair(Half(p.first), p.second)
    else if p.second != "" then Pair(p.first, Half(p.second))
    else p
  }

  /** The texts after `n` halvings. */
  function After(shorten: Shortener, p: Pair, n: nat): Pair {
    if n == 0 then p else shorten(After(shorten, p, n - 1))
  }

  function PairBits(p: Pair): nat {
    BitLength(|p.first|) + BitLength(|p.second|)
  }

  /** One halving takes one bit off one of the texts and keeps both prefixes. */
  ghost predicate Shortens(shorten: Shortener) {
    forall p :: ShortensAt(shorten, p)
  }

  ghost predicate ShortensAt(shorten: Shortener, p: Pair) {
    && shorten(p).first <= p.first && shorten(p).second <= p.second
    && (p != Pair("", "") ==> PairBits(shorten(p)) + 1 == PairBits(p))
    && (p == Pair("", "") ==> shorten(p) == p)
  }

  lemma HalfBits(s: string)
    requires s != ""
    ensures BitLength(|Half(s)|) + 1 == BitLength(|s|) && Half(s) <= s
  {
  }

  lemma BothShorten()
    ensures Shortens(FirstThenSecond) && Shortens(Longer)
  {
    forall p ensures ShortensAt(FirstThenSecond, p) && ShortensAt(Longer, p) {
      if p.first != "" { HalfBits(p.first); }
      if p.second != "" { HalfBits(p.second); }
    }
  }

  /** After any number of halvings both texts are prefixes of what they were, and as long as
      something was left each halving took one bit. */
  lemma {:induction false} AfterPrefixes(shorten: Shortener, p: Pair, n: nat)
    requires Shortens(shorten)
    ensures After(shorten, p, n).first <= p.first && After(shorten, p, n).second <= p.second
    ensures (forall k :: 0 <= k < n ==> After(shorten, p, k) != Pair("", "")) ==>
      PairBits(After(shorten, p, n)) + n == PairBits(p)
  {
    if n > 0 {
      AfterPrefixes(shorten, p, n - 1);
      assert ShortensAt(shorten, After(shorten, p, n - 1));
    }
  }

  /** Shell output is cut in order: the second text is whole while anything of the first is left. */
  lemma {:induction false} FirstGoesFirst(p: Pair, n: nat)
    ensures var q := After(FirstThenSecond, p, n); q.second == p.second || q.first == ""
  {
    if n > 0 { FirstGoesFirst(p, n - 1); }
  }

  /** Git output is cut evenly: no text is cut below half of the other, and of two texts of one length
      the first is cut. */
  lemma {:induction false} CutEvenly(p: Pair, n: nat)
    ensures var q := After(Longer, p, n);
      && (q.first == p.first || 2 * |q.first| + 1 >= |q.second|) && (q.second == p.second || 2 * |q.second| >= |q.first|)
  {
    if n > 0 { CutEvenly(p, n - 1); }
  }

  /** The loop's result: the first pair of the halving sequence whose artifact settles, or the one
      where nothing is left; flagged if and only if a text changed. */
  ghost predicate FirstFit(
    nfc: Normalizer, artifactOf: (Pair, bool) -> Py, shorten: Shortener, p: Pair, r: Built)
  {
    && r.Built? && 1 <= r.passes <= 1 + PairBits(p)
    && var n := r.passes - 1;
      var q := After(shorten, p, n);
      && r.artifact == artifactOf(q, q != p)
      && (Settled(nfc, r.artifact) || q == Pair("", ""))
      && q.first <= p.first && q.second <= p.second
      && forall k :: 0 <= k < n ==> Oversize(nfc, artifactOf, shorten, p, k)
  }

  /** After `k` halvings the artifact does not fit and something is left to halve. */
  ghost predicate Oversize(nfc: Normalizer, artifactOf: (Pair, bool) -> Py, shorten: Shortener, p: Pair, k: nat) {
    After(shorten, p, k) != Pair("", "") && !Settled(nfc, artifactOf(After(shorten, p, k), k > 0))
  }

  lemma ChangedIffHalved(shorten: Shortener, p: Pair, n: nat)
    requires Shortens(shorten) && forall k :: 0 <= k < n ==> After(shorten, p, k) != Pair("", "")
    ensures After(shorten, p, n) != p <==> n > 0
    ensures n <= PairBits(p)
  {
    AfterPrefixes(shorten, p, n);
  }

  datatype CommandResult = CommandResult(exitCode: int, stdout: string, stderr: string, error: Option<string>)

  function CommandEntries(given: Py, r: CommandResult, p: Pair): seq<Entry> {
    [Entry(PStr("command"), given), Entry(PStr("exit_code"), PInt(r.exitCode)), Text("stdout", p.first), Text("stderr", p.second),
     Maybe("error_type", r.error)]
  }

  function CommandArtifact(command: seq<string>, r: CommandResult): (Pair, bool) -> Py {
    (p: Pair, truncated: bool) => Typed("command_result",
      CommandEntries(PList(seq(|command|, i requires 0 <= i < |command| => PStr(command[i]))), r, p) + Flag(truncated))
  }

  /** `_build_command_artifact`. */
  method BuildCommandArtifact(nfc: Normalizer, command: seq<string>, r: CommandResult) returns (built: Built)
    ensures FirstFit(nfc, CommandArtifact(command, r), FirstThenSecond, Pair(r.stdout, r.stderr), built)
  {
    hide Settled, CommandArtifact, BitLength, Shortens;
    BothShorten();
    var stdout, stderr, truncated, passes := r.stdout, r.stderr, false, 0;
    ghost var start := Pair(r.stdout, r.stderr);
    while true
      invariant Pair(stdout, stderr) == After(FirstThenSecond, start, passes)
      invariant truncated == (passes > 0)
      invariant forall k :: 0 <= k < passes ==> Oversize(nfc, CommandArtifact(command, r), FirstThenSecond, start, k)
      decreases |stdout| + |stderr|
    {
      var artifact := CommandArtifact(command, r)(Pair(stdout, stderr), truncated);
      forall k | 0 <= k < passes ensures After(FirstThenSecond, start, k) != Pair("", "") {
        assert Oversize(nfc, CommandArtifact(command, r), FirstThenSecond, start, k);
      }
      ChangedIffHalved(FirstThenSecond, start, passes);
      AfterPrefixes(FirstThenSecond, start, passes);
      if Settled(nfc, artifact) { return Built(artifact, passes + 1); }
      if stdout == "" && stderr == "" { return Built(artifact, passes + 1); }
      truncated := true;
      if stdout != "" { stdout := Half(stdout); } else { stderr := Half(stderr); }
      passes := passes + 1;
    }
  }

  datatype GitStatus = GitStatus(
    repoPath: string, headSha: Option<string>, branch: Option<string>, isDirty: Option<bool>,
    porcelain: string, stderr: string, error: Option<string>)

  function GitEntries(r: GitStatus, p: Pair): seq<Entry> {
    [Text("repo_path", r.repoPath), Maybe("head_sha", r.headSha), Maybe("branch", r.branch),
     Entry(PStr("is_dirty"), match r.isDirty case None => PNone case Some(b) => PBool(b)),
     Text("status_porcelain", p.first), Text("stderr", p.second), Maybe("error_type", r.error)]
  }

  function GitArtifact(r: GitStatus): (Pair, bool) -> Py {
    (p: Pair, truncated: bool) => Typed("git_status", GitEntries(r, p) + Flag(truncated))
  }

  /** `_build_git_artifact`. */
  method BuildGitArtifact(nfc: Normalizer, r: GitStatus) returns (built: Built)
    ensures FirstFit(nfc, GitArtifact(r), Longer, Pair(r.porcelain, r.stderr), built)
  {
    hide Settled, GitArtifact, BitLength, Shortens;
    BothShorten();
    var porcelain, stderr, truncated, passes := r.porcelain, r.stderr, false, 0;
    ghost var start := Pair(r.porcelain, r.stderr);
    while true
      invariant Pair(porcelain, stderr) == After(Longer, start, passes)
      invariant truncated == (passes > 0)
      invariant forall k :: 0 <= k < passes ==> Oversize(nfc, GitArtifact(r), Longer, start, k)
      decreases |porcelain| + |stderr|
    {
      var artifact := GitArtifact(r)(Pair(porcelain, stderr), truncated);
      forall k | 0 <= k < passes ensures After(Longer, start, k) != Pair("", "") {
        assert Oversize(nfc, GitArtifact(r), Longer, start, k);
      }
      ChangedIffHalved(Longer, start, passes);
      AfterPrefixes(Longer, start, passes);
      if Settled(nfc, artifact) { return Built(artifact, passes + 1); }
      truncated := true;
      if |porcelain| >= |stderr| && porcelain != "" {
        porcelain := Half(porcelain);
      } else if stderr != "" {
        stderr := Half(stderr);
      } else {
        return Built(artifact, passes + 1);
      }
      passes := passes + 1;
    }
  }

  /** Both artifacts are made of texts, so they always have a canonical form. */
  lemma TextsSerial(nfc: Normalizer, command: seq<string>, c: CommandResult, g: GitStatus, p: Pair, truncated: bool)
    ensures Canonical(nfc, CommandArtifact(command, c)(p, truncated)).Some?
    ensures Canonical(nfc, GitArtifact(g)(p, truncated)).Some?
  {
    var x, y := CommandArtifact(command, c)(p, truncated), GitArtifact(g)(p, truncated);
    assert Serial(x.entries[0].value) && Serial(y.entries[0].value);
    assert Serial(x.entries[1].value) && Serial(y.entries[1].value);
    NormalizeAccepts(nfc, x);
    NormalizeAccepts(nfc, y);
  }

  // ---------------------------------------------------------------- three values, workers

  /** inputs, outputs and error_message, each a value or the snapshot that replaced it. */
  datatype Trio = Trio(inputs: Py, outputs: Py, message: Py)

  /** `_render`: None stands for PayloadValidationError. */
  function Render(nfc: Normalizer, v: Py): Option<string> {
    if v.PStr? then Some(v.s)
    else match Canonical(nfc, v) case None => None case Some(j) => Some(JsonText.Dumps(j, false))
  }

  predicate Renderable(nfc: Normalizer, t: Trio) {
    Render(nfc, t.inputs).Some? && Render(nfc, t.outputs).Some? && Render(nfc, t.message).Some?
  }

  function Rendered(nfc: Normalizer, v: Py): string {
    match Render(nfc, v) case None => "" case Some(s) => s
  }

  function Snapshot(nfc: Normalizer, v: Py): Py {
    PStr(Half(Rendered(nfc, v)))
  }

  /** The longest rendering is halved, the first of equally long ones. */
  function HalveLargest(nfc: Normalizer, t: Trio): Trio {
    var a, b, c := |Rendered(nfc, t.inputs)|, |Rendered(nfc, t.outputs)|, |Rendered(nfc, t.message)|;
    if a >= b && a >= c then t.(inputs := Snapshot(nfc, t.inputs))
    else if b >= c then t.(outputs := Snapshot(nfc, t.outputs))
    else t.(message := Snapshot(nfc, t.message))
  }

  function TrioAfter(nfc: Normalizer, t: Trio, n: nat): Trio {
    if n == 0 then t else HalveLargest(nfc, TrioAfter(nfc, t, n - 1))
  }

  function TrioBits(nfc: Normalizer, t: Trio): nat {
    BitLength(|Rendered(nfc, t.inputs)|) + BitLength(|Rendered(nfc, t.outputs)|) + BitLength(|Rendered(nfc, t.message)|)
  }

  /** Nothing is left to shrink. */
  predicate Spent(nfc: Normalizer, t: Trio) {
    Rendered(nfc, t.inputs) == "" && Rendered(nfc, t.outputs) == "" && Rendered(nfc, t.message) == ""
  }

  /** Each field is what it was, or a text that its rendering starts with. */
  ghost predicate Kept(nfc: Normalizer, v: Py, was: Py) {
    v == was || (v.PStr? && v.s <= Rendered(nfc, was))
  }

  ghost predicate AllKept(nfc: Normalizer, t: Trio, was: Trio) {
    Kept(nfc, t.inputs, was.inputs) && Kept(nfc, t.outputs, was.outputs) && Kept(nfc, t.message, was.message)
  }

  lemma SnapshotKept(nfc: Normalizer, v: Py, was: Py)
    requires Kept(nfc, v, was)
    ensures Kept(nfc, Snapshot(nfc, v), was) && Render(nfc, Snapshot(nfc, v)).Some?
    ensures Rendered(nfc, v) != "" ==>
      BitLength(|Rendered(nfc, Snapshot(nfc, v))|) + 1 == BitLength(|Rendered(nfc, v)|) && |Rendered(nfc, Snapshot(nfc, v))| < |Rendered(nfc, v)|
  {
    if Rendered(nfc, v) != "" { HalfBits(Rendered(nfc, v)); }
  }

  lemma HalveOnce(nfc: Normalizer, t: Trio, was: Trio)
    requires AllKept(nfc, t, was) && Renderable(nfc, t) && !Spent(nfc, t)
    ensures var u := HalveLargest(nfc, t);
      && AllKept(nfc, u, was) && Renderable(nfc, u) && TrioBits(nfc, u) + 1 == TrioBits(nfc, t)
  {
    hide BitLength, Kept, Render, Rendered, Snapshot;
    SnapshotKept(nfc, t.inputs, was.inputs);
    SnapshotKept(nfc, t.outputs, was.outputs);
    SnapshotKept(nfc, t.message, was.message);
  }

  lemma {:induction false} TrioProgress(nfc: Normalizer, t: Trio, n: nat)
    requires Renderable(nfc, t) && forall k :: 0 <= k < n ==> !Spent(nfc, TrioAfter(nfc, t, k))
    ensures var u := TrioAfter(nfc, t, n);
      AllKept(nfc, u, t) && Renderable(nfc, u) && TrioBits(nfc, u) + n == TrioBits(nfc, t) && (u != t <==> n > 0)
  {
    hide AllKept, Renderable, TrioBits, HalveLargest, Spent;
    if n == 0 {
      SameKept(nfc, t);
    } else {
      TrioProgress(nfc, t, n - 1);
      HalveOnce(nfc, TrioAfter(nfc, t, n - 1), t);
    }
  }

  lemma SameKept(nfc: Normalizer, t: Trio)
    ensures AllKept(nfc, t, t)
  {
  }

  function WorkerEntries(name: string, success: bool, error: Option<string>, t: Trio): seq<Entry> {
    [Text("worker_name", name), Entry(PStr("inputs"), t.inputs), Entry(PStr("outputs"), t.outputs),
     Entry(PStr("worker_success"), PBool(success)), Maybe("error_type", error), Entry(PStr("error_message"), t.message)]
  }

  function WorkerArtifact(name: string, success: bool, error: Option<string>, t: Trio, truncated: bool): Py {
    Typed("worker_result", WorkerEntries(name, success, error, t) + Flag(truncated))
  }

  /** The artifact after `k` halvings does not fit and something is left to halve. */
  ghost predicate TooLarge(nfc: Normalizer, name: string, success: bool, error: Option<string>, t: Trio, k: nat) {
    !Spent(nfc, TrioAfter(nfc, t, k)) && !Settled(nfc, WorkerArtifact(name, success, error, TrioAfter(nfc, t, k), k > 0))
  }

  /** `_build_worker_artifact`. It raises exactly when the first artifact does not fit and one of its
      fields is neither a text nor a dict; otherwise it returns the first artifact of the halving
      sequence that settles, or the one where nothing is left. */
  method BuildWorkerArtifact(nfc: Normalizer, name: string, success: bool, error: Option<string>, t: Trio) returns (r: Built)
    ensures r.Raised? <==> !Settled(nfc, WorkerArtifact(name, success, error, t, false)) && !Renderable(nfc, t)
    ensures r.Built? ==>
      && 1 <= r.passes <= 1 + TrioBits(nfc, t)
      && var n := r.passes - 1;
        var u := TrioAfter(nfc, t, n);
        && r.artifact == WorkerArtifact(name, success, error, u, u != t)
        && (Settled(nfc, r.artifact) || Spent(nfc, u))
        && AllKept(nfc, u, t)
        && forall k :: 0 <= k < n ==> TooLarge(nfc, name, success, error, t, k)
  {
    hide Settled, WorkerArtifact, TrioBits, AllKept, Render, Half;
    var fields, truncated, passes := t, false, 0;
    SameKept(nfc, t);
    while true
      invariant fields == TrioAfter(nfc, t, passes) && truncated == (passes > 0)
      invariant forall k :: 0 <= k < passes ==> TooLarge(nfc, name, success, error, t, k)
      invariant passes > 0 ==> Renderable(nfc, t) && !Settled(nfc, WorkerArtifact(name, success, error, t, false))
      decreases TrioBits(nfc, t) - passes
    {
      var artifact := WorkerArtifact(name, success, error, fields, truncated);
      forall k | 0 <= k < passes ensures !Spent(nfc, TrioAfter(nfc, t, k)) { assert TooLarge(nfc, name, success, error, t, k); }
      if Renderable(nfc, t) { TrioProgress(nfc, t, passes); }
      if Settled(nfc, artifact) { return Built(artifact, passes + 1); }
      truncated := true;
      var a, b, c := Render(nfc, fields.inputs), Render(nfc, fields.outputs), Render(nfc, fields.message);
      if a.None? || b.None? || c.None? { return Raised; }
      if |a.value| == 0 && |b.value| == 0 && |c.value| == 0 {
        SpentIs(nfc, fields);
        return Built(artifact, passes + 1);
      }
      SpentIs(nfc, fields);
      if |a.value| >= |b.value| && |a.value| >= |c.value| {
        fields := fields.(inputs := PStr(Half(a.value)));
      } else if |b.value| >= |c.value| {
        fields := fields.(outputs := PStr(Half(b.value)));
      } else {
        fields := fields.(message := PStr(Half(c.value)));
      }
      passes := passes + 1;
      TrioProgress(nfc, t, passes);
    }
  }

  lemma SpentIs(nfc: Normalizer, t: Trio)
    requires Renderable(nfc, t)
    ensures Spent(nfc, t) <==>
      |Render(nfc, t.inputs).value| == 0 && |Render(nfc, t.outputs).value| == 0 && |Render(nfc, t.message).value| == 0
  {
    hide Render;
  }

  // ---------------------------------------------------------------- the documents

  /** One more member of a dict whose key is in normal form. */
  lemma Next(nfc: Normalizer, es: seq<Entry>, m: map<string, Json>, k: string, v: Py, j: Json)
    requires NormalizeEntries(nfc, es) == Some(m) && nfc(k) == k && Normalize(nfc, v) == Some(j)
    ensures NormalizeEntries(nfc, es + [Entry(PStr(k), v)]) == Some(m[k := j])
  {
    var more := es + [Entry(PStr(k), v)];
    assert more[..|es|] == es && more[|es|] == Entry(PStr(k), v);
  }

  lemma Three(
    nfc: Normalizer, es: seq<Entry>, m: map<string, Json>, k: string, v: Py, j: Json, k': string, v': Py, j': Json,
      k'': string, v'': Py, j'': Json)
    requires NormalizeEntries(nfc, es) == Some(m) && nfc(k) == k && nfc(k') == k' && nfc(k'') == k''
    requires Normalize(nfc, v) == Some(j) && Normalize(nfc, v') == Some(j') && Normalize(nfc, v'') == Some(j'')
    ensures NormalizeEntries(nfc, es + [Entry(PStr(k), v), Entry(PStr(k'), v'), Entry(PStr(k''), v'')]) == Some(m[k := j][k' := j'][k'' := j''])
  {
    hide Normalize, NormalizeEntries;
    Next(nfc, es, m, k, v, j);
    Next(nfc, es + [Entry(PStr(k), v)], m[k := j], k', v', j');
    Next(nfc, es + [Entry(PStr(k), v)] + [Entry(PStr(k'), v')], m[k := j][k' := j'], k'', v'', j'');
    assert es + [Entry(PStr(k), v)] + [Entry(PStr(k'), v')] + [Entry(PStr(k''), v'')] ==
      es + [Entry(PStr(k), v), Entry(PStr(k'), v'), Entry(PStr(k''), v'')];
  }

  /** These literals are in normal form already, as every ASCII text is. */
  ghost predicate Fixed(nfc: Normalizer, ks: set<string>) {
    forall k :: k in ks ==> nfc(k) == k
  }

  /** The content of an artifact that was cut says so. */
  function Marked(m: map<string, Json>, truncated: bool): map<string, Json> {
    if truncated then m["truncated" := Bool(true)] else m
  }

  function TextOrNull(nfc: Normalizer, o: Option<string>): Json {
    if o.Some? then Str(nfc(o.value)) else Null
  }

  lemma TypedReads(nfc: Normalizer, kind: string, es: seq<Entry>, m: map<string, Json>, truncated: bool)
    requires Fixed(nfc, {"type", "content", "truncated", kind}) && NormalizeEntries(nfc, es) == Some(m)
    ensures Canonical(nfc, Typed(kind, es + Flag(truncated))) ==
      Some(Obj(map["type" := Str(kind), "content" := Obj(Marked(m, truncated))]))
  {
    hide NormalizeEntries;
    if truncated { Next(nfc, es, m, "truncated", PBool(true), Bool(true)); } else { assert es + Flag(false) == es; }
    TwoRead(nfc, kind, PDict(es + Flag(truncated)), Obj(Marked(m, truncated)));
  }

  lemma TwoRead(nfc: Normalizer, kind: string, v: Py, j: Json)
    requires Fixed(nfc, {"type", "content", kind}) && Normalize(nfc, v) == Some(j)
    ensures NormalizeEntries(nfc, [Text("type", kind), Entry(PStr("content"), v)]) == Some(map["type" := Str(kind), "content" := j])
  {
    var es, all := [], [Text("type", kind), Entry(PStr("content"), v)];
    assert NormalizeEntries(nfc, es) == Some(map[]) && Normalize(nfc, PStr(kind)) == Some(Str(kind));
    hide Normalize, NormalizeEntries;
    Next(nfc, es, map[], "type", PStr(kind), Str(kind));
    Next(nfc, es + [all[0]], map["type" := Str(kind)], "content", v, j);
    assert es + [all[0]] + [all[1]] == all;
  }

  lemma {:induction false} TextsRead(nfc: Normalizer, xs: seq<string>)
    ensures NormalizeItems(nfc, seq(|xs|, i requires 0 <= i < |xs| => PStr(xs[i]))) ==
      Some(seq(|xs|, i requires 0 <= i < |xs| => Str(nfc(xs[i]))))
  {
    var all := seq(|xs|, i requires 0 <= i < |xs| => PStr(xs[i]));
    var read := seq(|xs|, i requires 0 <= i < |xs| => Str(nfc(xs[i])));
    if xs == [] {
      assert all == [] && read == [];
    } else {
      var front, n := xs[..|xs|-1], |xs| - 1;
      TextsRead(nfc, front);
      assert all[..n] == seq(|front|, i requires 0 <= i < |front| => PStr(front[i])) && all[n] == PStr(xs[n]);
      assert read == seq(|front|, i requires 0 <= i < |front| => Str(nfc(front[i]))) + [Str(nfc(xs[n]))];
    }
  }

  /** The document of a command: the whole command and exit code, and the two texts as they were cut. */
  lemma CommandDocument(nfc: Normalizer, command: seq<string>, r: CommandResult, p: Pair, truncated: bool)
    requires Fixed(nfc, {"type", "content", "command_result", "command", "exit_code", "stdout", "stderr", "error_type", "truncated"})
    ensures Canonical(nfc, CommandArtifact(command, r)(p, truncated)) == Some(Obj(map["type" := Str("command_result"), "content" := Obj(Marked(map[
      "command" := Arr(seq(|command|, i requires 0 <= i < |command| => Str(nfc(command[i])))), "exit_code" := Int(r.exitCode),
      "stdout" := Str(nfc(p.first)), "stderr" := Str(nfc(p.second)), "error_type" := TextOrNull(nfc, r.error)], truncated))]))
  {
    TextsRead(nfc, command);
    var given := PList(seq(|command|, i requires 0 <= i < |command| => PStr(command[i])));
    var words := Arr(seq(|command|, i requires 0 <= i < |command| => Str(nfc(command[i]))));
    assert Normalize(nfc, given) == Some(words);
    hide Normalize;
    var m := CommandReads(nfc, given, words, r, p);
    TypedReads(nfc, "command_result", CommandEntries(given, r, p), m, truncated);
  }

  lemma CommandReads(nfc: Normalizer, given: Py, words: Json, r: CommandResult, p: Pair) returns (m: map<string, Json>)
    requires Fixed(nfc, {"command", "exit_code", "stdout", "stderr", "error_type"}) && Normalize(nfc, given) == Some(words)
    ensures m == map["command" := words, "exit_code" := Int(r.exitCode), "stdout" := Str(nfc(p.first)),
      "stderr" := Str(nfc(p.second)), "error_type" := TextOrNull(nfc, r.error)]
    ensures NormalizeEntries(nfc, CommandEntries(given, r, p)) == Some(m)
  {
    assert NormalizeEntries(nfc, []) == Some(map[]);
    hide NormalizeEntries;
    var es, all := [], CommandEntries(given, r, p);
    m := map[];
    Three(nfc, es, m, "command", given, words, "exit_code", PInt(r.exitCode), Int(r.exitCode), "stdout", PStr(p.first),
      Str(nfc(p.first)));
    es, m := es + [all[0], all[1], all[2]], m["command" := words]["exit_code" := Int(r.exitCode)]["stdout" := Str(nfc(p.first))];
    Next(nfc, es, m, "stderr", PStr(p.second), Str(nfc(p.second)));
    es, m := es + [all[3]], m["stderr" := Str(nfc(p.second))];
    Next(nfc, es, m, "error_type", all[4].value, TextOrNull(nfc, r.error));
    es, m := es + [all[4]], m["error_type" := TextOrNull(nfc, r.error)];
    assert es == all;
  }

  /** The document of a repository's status. */
  lemma GitDocument(nfc: Normalizer, r: GitStatus, p: Pair, truncated: bool)
    requires Fixed(nfc, {"type", "content", "git_status", "repo_path", "head_sha", "branch", "is_dirty",
      "status_porcelain", "stderr", "error_type", "truncated"})
    ensures Canonical(nfc, GitArtifact(r)(p, truncated)) == Some(Obj(map["type" := Str("git_status"), "content" := Obj(Marked(map[
      "repo_path" := Str(nfc(r.repoPath)), "head_sha" := TextOrNull(nfc, r.headSha), "branch" := TextOrNull(nfc, r.branch),
      "is_dirty" := if r.isDirty.Some? then Bool(r.isDirty.value) else Null,
      "status_porcelain" := Str(nfc(p.first)), "stderr" := Str(nfc(p.second)), "error_type" := TextOrNull(nfc, r.error)], truncated))]))
  {
    hide Normalize;
    var m := GitReads(nfc, r, p);
    TypedReads(nfc, "git_status", GitEntries(r, p), m, truncated);
  }

  lemma GitReads(nfc: Normalizer, r: GitStatus, p: Pair) returns (m: map<string, Json>)
    requires Fixed(nfc, {"repo_path", "head_sha", "branch", "is_dirty", "status_porcelain", "stderr", "error_type"})
    ensures m == map["repo_path" := Str(nfc(r.repoPath)), "head_sha" := TextOrNull(nfc, r.headSha), "branch" := TextOrNull(nfc, r.branch),
      "is_dirty" := if r.isDirty.Some? then Bool(r.isDirty.value) else Null,
      "status_porcelain" := Str(nfc(p.first)), "stderr" := Str(nfc(p.second)), "error_type" := TextOrNull(nfc, r.error)]
    ensures NormalizeEntries(nfc, GitEntries(r, p)) == Some(m)
  {
    assert NormalizeEntries(nfc, []) == Some(map[]);
    hide NormalizeEntries;
    var es, all := [], GitEntries(r, p);
    var dirty := if r.isDirty.Some? then Bool(r.isDirty.value) else Null;
    m := map[];
    Three(nfc, es, m, "repo_path", all[0].value, Str(nfc(r.repoPath)), "head_sha", all[1].value, TextOrNull(nfc, r.headSha),
      "branch", all[2].value, TextOrNull(nfc, r.branch));
    es, m := es + [all[0], all[1], all[2]],
      m["repo_path" := Str(nfc(r.repoPath))]["head_sha" := TextOrNull(nfc, r.headSha)]["branch" := TextOrNull(nfc, r.branch)];
    Three(nfc, es, m, "is_dirty", all[3].value, dirty, "status_porcelain", all[4].value, Str(nfc(p.first)),
      "stderr", all[5].value, Str(nfc(p.second)));
    es, m := es + [all[3], all[4], all[5]],
      m["is_dirty" := dirty]["status_porcelain" := Str(nfc(p.first))]["stderr" := Str(nfc(p.second))];
    Next(nfc, es, m, "error_type", all[6].value, TextOrNull(nfc, r.error));
    es, m := es + [all[6]], m["error_type" := TextOrNull(nfc, r.error)];
    assert es == all;
  }

  /** The document of a worker's result holds the canonical forms of its three values. */
  lemma WorkerDocument(
    nfc: Normalizer, name: string, success: bool, error: Option<string>, t: Trio, truncated: bool, a: Json, b: Json, c: Json)
    requires Fixed(nfc, {"type", "content", "worker_result", "worker_name", "inputs", "outputs", "worker_success",
      "error_type", "error_message", "truncated"})
    requires Normalize(nfc, t.inputs) == Some(a) && Normalize(nfc, t.outputs) == Some(b) && Normalize(nfc, t.message) == Some(c)
    ensures Canonical(nfc, WorkerArtifact(name, success, error, t, truncated)) == Some(Obj(map["type" := Str("worker_result"), "content" := Obj(Marked(map[
      "worker_name" := Str(nfc(name)), "inputs" := a, "outputs" := b, "worker_success" := Bool(success),
      "error_type" := TextOrNull(nfc, error), "error_message" := c], truncated))]))
  {
    hide Normalize;
    var m := WorkerReads(nfc, name, success, error, t, a, b, c);
    TypedReads(nfc, "worker_result", WorkerEntries(name, success, error, t), m, truncated);
  }

  lemma WorkerReads(nfc: Normalizer, name: string, success: bool, error: Option<string>, t: Trio, a: Json, b: Json, c: Json)
    returns (m: map<string, Json>)
    requires Fixed(nfc, {"worker_name", "inputs", "outputs", "worker_success", "error_type", "error_message"})
    requires Normalize(nfc, t.inputs) == Some(a) && Normalize(nfc, t.outputs) == Some(b) && Normalize(nfc, t.message) == Some(c)
    ensures m == map["worker_name" := Str(nfc(name)), "inputs" := a, "outputs" := b, "worker_success" := Bool(success),
      "error_type" := TextOrNull(nfc, error), "error_message" := c]
    ensures NormalizeEntries(nfc, WorkerEntries(name, success, error, t)) == Some(m)
  {
    var es, all := [], WorkerEntries(name, success, error, t);
    assert NormalizeEntries(nfc, []) == Some(map[]);
    assert Normalize(nfc, all[0].value) == Some(Str(nfc(name))) && Normalize(nfc, all[3].value) == Some(Bool(success))
      && Normalize(nfc, all[4].value) == Some(TextOrNull(nfc, error));
    hide NormalizeEntries, Normalize, TextOrNull;
    m := map[];
    Three(nfc, es, m, "worker_name", all[0].value, Str(nfc(name)), "inputs", t.inputs, a, "outputs", t.outputs, b);
    es, m := es + [all[0], all[1], all[2]], m["worker_name" := Str(nfc(name))]["inputs" := a]["outputs" := b];
    Three(nfc, es, m, "worker_success", all[3].value, Bool(success), "error_type", all[4].value, TextOrNull(nfc, error),
      "error_message", t.message, c);
    es, m := es + [all[3], all[4], all[5]],
      m["worker_success" := Bool(success)]["error_type" := TextOrNull(nfc, error)]["error_message" := c];
    assert es == all;
  }

  /** What settles is at most 64000 bytes of UTF-8. */
  lemma SettledFits(nfc: Normalizer, artifact: Py)
    requires Canonical(nfc, artifact).Some?
    ensures Settled(nfc, artifact) <==> |Utf8(JsonText.Dumps(Canonical(nfc, artifact).value, false))| <= 64000
  {
    LengthIsUtf8(JsonText.Dumps(Canonical(nfc, artifact).value, false));
  }

  /** What is left of a field that was cut is at least half of the other's rendering, rounded down, and
      rounded up if the other comes before it. */
  ghost predicate Even(nfc: Normalizer, v: Py, was: Py, other: Py, before: bool) {
    v == was || 2 * |Rendered(nfc, v)| + (if before then 0 else 1) >= |Rendered(nfc, other)|
  }

  lemma SnapshotHalves(nfc: Normalizer, v: Py)
    ensures Rendered(nfc, Snapshot(nfc, v)) == Half(Rendered(nfc, v))
  {
  }

  /** A worker's three values are cut evenly, of equally long ones the first. */
  lemma {:induction false} TrioCutEvenly(nfc: Normalizer, t: Trio, n: nat)
    ensures var u := TrioAfter(nfc, t, n);
      && Even(nfc, u.inputs, t.inputs, u.outputs, false) && Even(nfc, u.inputs, t.inputs, u.message, false)
      && Even(nfc, u.outputs, t.outputs, u.inputs, true) && Even(nfc, u.outputs, t.outputs, u.message, false)
      && Even(nfc, u.message, t.message, u.inputs, true) && Even(nfc, u.message, t.message, u.outputs, true)
  {
    hide Rendered, Snapshot;
    if n > 0 {
      TrioCutEvenly(nfc, t, n - 1);
      var u := TrioAfter(nfc, t, n - 1);
      SnapshotHalves(nfc, u.inputs);
      SnapshotHalves(nfc, u.outputs);
      SnapshotHalves(nfc, u.message);
    }
  }
}
