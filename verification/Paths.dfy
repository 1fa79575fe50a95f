/** Validation of artifact paths, checked against an independent lexical walk of the path. */
module Paths {
  import opened Json

  datatype PathResult = Path(normal: string) | PathError(code: string)

  // ---------------------------------------------------------------- splitting and joining

  /** `s.split("/")`. */
  function Split(s: string): (r: seq<string>)
    ensures r != []
  {
    if s == "" then [""]
    else
      var rest := Split(s[1..]);
      if s[0] == '/' then [""] + rest else [[s[0]] + rest[0]] + rest[1..]
  }

  /** `"/".join(xs)`. */
  function Join(xs: seq<string>): string {
    if xs == [] then "" else if |xs| == 1 then xs[0] else xs[0] + "/" + Join(xs[1..])
  }

  lemma {:induction false} JoinSplit(s: string)
    ensures Join(Split(s)) == s
  {
    if s != "" {
      JoinSplit(s[1..]);
      var rest := Split(s[1..]);
      assert s == [s[0]] + s[1..];
      if s[0] == '/' {
        assert ([""] + rest)[1..] == rest;
      } else {
        var r := [[s[0]] + rest[0]] + rest[1..];
        assert r[1..] == rest[1..];
      }
    }
  }

  lemma {:induction false} SplitFirst(x: string, t: string)
    requires '/' !in x
    ensures Split(x + "/" + t) == [x] + Split(t)
  {
    if x == "" {
      assert (x + "/" + t)[1..] == t;
    } else {
      SplitFirst(x[1..], t);
      assert (x + "/" + t)[1..] == x[1..] + "/" + t;
      assert [x[0]] + x[1..] == x;
    }
  }

  lemma {:induction false} SplitOne(x: string)
    requires '/' !in x
    ensures Split(x) == [x]
  {
    if x != "" {
      SplitOne(x[1..]);
      assert [x[0]] + x[1..] == x;
    }
  }

  /** Names without a slash survive joining and splitting. */
  lemma {:induction false} SplitJoin(xs: seq<string>)
    requires xs != [] && forall k :: 0 <= k < |xs| ==> '/' !in xs[k]
    ensures Split(Join(xs)) == xs
  {
    if |xs| == 1 {
      SplitOne(xs[0]);
    } else {
      SplitJoin(xs[1..]);
      SplitFirst(xs[0], Join(xs[1..]));
      assert xs == [xs[0]] + xs[1..];
    }
  }

  lemma {:induction false} SplitSlashFree(s: string)
    ensures forall k :: 0 <= k < |Split(s)| ==> '/' !in Split(s)[k]
  {
    if s != "" { SplitSlashFree(s[1..]); }
  }

  // ---------------------------------------------------------------- normpath

  /** One component on the stack of `posixpath.normpath`, for a relative path. */
  function Push(stack: seq<string>, c: string): seq<string> {
    if c == "" || c == "." then stack
    else if c != ".." || stack == [] || stack[|stack|-1] == ".." then stack + [c]
    else stack[..|stack|-1]
  }

  function Collapse(cs: seq<string>): seq<string> {
    if cs == [] then [] else Push(Collapse(cs[..|cs|-1]), cs[|cs|-1])
  }

  function NormPath(p: string): string {
    var r := Join(Collapse(Split(p)));
    if r == "" then "." else r
  }

  method Normalized(p: string) returns (r: string)
    ensures r == NormPath(p)
  {
    var comps := Split(p);
    var stack: seq<string> := [];
    for k := 0 to |comps|
      invariant stack == Collapse(comps[..k])
    {
      var c := comps[k];
      assert comps[..k+1][..k] == comps[..k] && comps[..k+1][k] == c;
      if c != "" && c != "." {
        if c != ".." || stack == [] || stack[|stack|-1] == ".." {
          stack := stack + [c];
        } else {
          stack := stack[..|stack|-1];
        }
      }
    }
    assert comps[..|comps|] == comps;
    r := Join(stack);
    if r == "" { r := "."; }
  }

  // ---------------------------------------------------------------- the check

  /** The characters `str.strip()` removes. */
  predicate Blank(c: char) {
    || '\t' <= c <= '\r' || '\U{1C}' <= c <= ' ' || c == '\U{85}' || c == '\U{A0}' || c == '\U{1680}'
    || '\U{2000}' <= c <= '\U{200A}' || c == '\U{2028}' || c == '\U{2029}' || c == '\U{202F}'
    || c == '\U{205F}' || c == '\U{3000}'
  }

  predicate Letter(c: char) {
    'A' <= c <= 'Z' || 'a' <= c <= 'z' || '0' <= c <= '9' || c == '.' || c == '_' || c == '-'
  }

  /** The filename alphabet, at least one character. */
  predicate Spelled(x: string) {
    x != "" && forall k :: 0 <= k < |x| ==> Letter(x[k])
  }

  predicate Dots(x: string) {
    x == "" || x == "." || x == ".."
  }

  /** Refused before the path is normalized. */
  predicate Malformed(p: string) {
    (forall k :: 0 <= k < |p| ==> Blank(p[k])) || (p != "" && p[0] == '/') || '\\' in p || ':' in p
  }

  /** `normalize_relative_path`. */
  function NormalizeRelativePath(p: string): PathResult {
    if Malformed(p) then PathError("INVALID_PATH")
    else
      var normalized := NormPath(p);
      if normalized == "" || normalized == "." then PathError("INVALID_PATH")
      else
        var parts := Split(normalized);
        if exists x :: x in parts && Dots(x) then PathError("PATH_TRAVERSAL")
        else if exists x :: x in parts && !Spelled(x) then PathError("INVALID_PATH")
        else Path(normalized)
  }

  // ---------------------------------------------------------------- the walk

  /** Where following the components leads, from a directory that may not be left: None when the
      path climbs out of it at any point. */
  function Walk(cs: seq<string>): Option<seq<string>> {
    if cs == [] then Some([])
    else
      var at, c := Walk(cs[..|cs|-1]), cs[|cs|-1];
      if at.None? then None
      else if c == "" || c == "." then at
      else if c == ".." then (if at.value == [] then None else Some(at.value[..|at.value|-1]))
      else Some(at.value + [c])
  }

  predicate SlashFree(xs: seq<string>) {
    forall k :: 0 <= k < |xs| ==> '/' !in xs[k]
  }

  predicate NoDots(xs: seq<string>) {
    forall k :: 0 <= k < |xs| ==> !Dots(xs[k])
  }

  lemma {:induction false} CollapseNames(cs: seq<string>)
    requires SlashFree(cs)
    ensures SlashFree(Collapse(cs))
    ensures forall k :: 0 <= k < |Collapse(cs)| ==> Collapse(cs)[k] != "" && Collapse(cs)[k] != "."
  {
    if cs != [] { CollapseNames(cs[..|cs|-1]); }
  }

  /** The path has left the directory, and every `..` follows only other ones. */
  predicate Climbed(stack: seq<string>) {
    stack != [] && stack[0] == ".." && forall k :: 0 < k < |stack| && stack[k] == ".." ==> stack[k-1] == ".."
  }

  lemma ClimbedStays(stack: seq<string>, c: string)
    requires Climbed(stack)
    ensures Climbed(Push(stack, c))
  {
  }

  /** The stack is the walk while the walk stays inside, and starts with `..` once it has left. */
  lemma {:induction false} CollapseWalks(cs: seq<string>)
    ensures match Walk(cs)
      case Some(xs) => Collapse(cs) == xs && NoDots(xs)
      case None => Climbed(Collapse(cs))
  {
    if cs != [] {
      CollapseWalks(cs[..|cs|-1]);
      if Walk(cs[..|cs|-1]).None? { ClimbedStays(Collapse(cs[..|cs|-1]), cs[|cs|-1]); }
    }
  }

  lemma {:induction false} JoinNonEmpty(xs: seq<string>)
    requires xs != [] && xs[0] != ""
    ensures Join(xs) != ""
  {
  }

  lemma DotsAlone(xs: seq<string>)
    requires xs != [] && SlashFree(xs) && Join(xs) == "."
    ensures xs == ["."]
  {
    SplitJoin(xs);
    assert Split(".") == ["."] by { SplitOne("."); }
  }

  lemma NormPathParts(p: string)
    ensures var st := Collapse(Split(p));
      if st == [] then NormPath(p) == "." else NormPath(p) != "." && NormPath(p) != "" && NormPath(p) == Join(st) && Split(NormPath(p)) == st
  {
    SplitSlashFree(p);
    CollapseNames(Split(p));
    var st := Collapse(Split(p));
    if st != [] {
      JoinNonEmpty(st);
      SplitJoin(st);
      if Join(st) == "." { DotsAlone(st); }
    }
  }

  /** The check accepts exactly the well-formed paths whose walk stays inside, ends below the
      start and uses the alphabet; it returns the walk joined, and tells escape from bad names. */
  lemma AcceptsInsideWalks(p: string)
    ensures NormalizeRelativePath(p) ==
      if Malformed(p) then PathError("INVALID_PATH")
      else
        match Walk(Split(p))
        case None => PathError("PATH_TRAVERSAL")
        case Some(xs) =>
          if xs == [] || exists x :: x in xs && !Spelled(x) then PathError("INVALID_PATH")
          else Path(Join(xs))
  {
    hide NormPath, Spelled;
    NormPathParts(p);
    SplitSlashFree(p);
    CollapseWalks(Split(p));
    var st := Collapse(Split(p));
    if Walk(Split(p)).None? { assert st[0] in st && Dots(st[0]); }
  }

  ghost predicate Legal(xs: seq<string>) {
    xs != [] && forall k :: 0 <= k < |xs| ==> Spelled(xs[k]) && !Dots(xs[k])
  }

  /** An accepted path is a slash-joined list of legal names, the walk's. */
  lemma AcceptedIsLegal(p: string)
    requires NormalizeRelativePath(p).Path?
    ensures var n := NormalizeRelativePath(p).normal;
      Legal(Split(n)) && Join(Split(n)) == n && Walk(Split(p)) == Some(Split(n)) && !Malformed(p)
  {
    hide NormPath, Spelled, Dots;
    AcceptsInsideWalks(p);
    NormPathParts(p);
    SplitSlashFree(p);
    CollapseWalks(Split(p));
    JoinSplit(NormalizeRelativePath(p).normal);
    var xs := Split(NormalizeRelativePath(p).normal);
    assert forall k :: 0 <= k < |xs| ==> xs[k] in xs;
  }

  lemma {:induction false} LegalStays(xs: seq<string>)
    requires forall k :: 0 <= k < |xs| ==> !Dots(xs[k])
    ensures Walk(xs) == Some(xs)
  {
    if xs != [] {
      LegalStays(xs[..|xs|-1]);
      assert xs == xs[..|xs|-1] + [xs[|xs|-1]];
    }
  }

  /** A character of a joined path is a slash or a character of a name. */
  lemma {:induction false} JoinedCharacters(xs: seq<string>, c: char)
    requires c in Join(xs)
    ensures c == '/' || exists k :: 0 <= k < |xs| && c in xs[k]
  {
    if |xs| > 1 {
      if c in Join(xs[1..]) && c != '/' && c !in xs[0] {
        JoinedCharacters(xs[1..], c);
        var k :| 0 <= k < |xs[1..]| && c in xs[1..][k];
        assert c in xs[k + 1];
      } else {
        assert c == '/' || c in xs[0];
      }
    }
  }

  lemma {:induction false} JoinStarts(xs: seq<string>)
    requires xs != [] && xs[0] != ""
    ensures Join(xs) != "" && Join(xs)[0] == xs[0][0]
  {
  }

  lemma LegalWellFormed(xs: seq<string>)
    requires Legal(xs)
    ensures !Malformed(Join(xs))
  {
    assert Spelled(xs[0]);
    JoinStarts(xs);
    assert Letter(Join(xs)[0]) && !Blank(Join(xs)[0]);
    if '\\' in Join(xs) { JoinedCharacters(xs, '\\'); }
    if ':' in Join(xs) { JoinedCharacters(xs, ':'); }
  }

  lemma SpelledSlashFree(xs: seq<string>)
    requires Legal(xs)
    ensures SlashFree(xs)
  {
    forall k | 0 <= k < |xs| ensures '/' !in xs[k] { assert Spelled(xs[k]); }
  }

  /** Every list of legal names is accepted as it is. */
  lemma LegalIsAccepted(xs: seq<string>)
    requires Legal(xs)
    ensures NormalizeRelativePath(Join(xs)) == Path(Join(xs))
  {
    LegalWellFormed(xs);
    SpelledSlashFree(xs);
    SplitJoin(xs);
    LegalStays(xs);
    AcceptsInsideWalks(Join(xs));
    hide Spelled;
    assert forall x :: x in xs ==> Spelled(x);
  }

  /** Normalizing again changes nothing. */
  lemma NormalizationIdempotent(p: string)
    requires NormalizeRelativePath(p).Path?
    ensures NormalizeRelativePath(NormalizeRelativePath(p).normal) == NormalizeRelativePath(p)
  {
    AcceptedIsLegal(p);
    LegalIsAccepted(Split(NormalizeRelativePath(p).normal));
  }

  // ---------------------------------------------------------------- locations

  datatype Location = At(parts: seq<string>) | Outside(code: string)

  /** `_get_artifact_path`, on a file system without links: the resolved artifacts directory is a
      list of names, and the result may not leave it. */
  function ArtifactPath(base: seq<string>, p: string): Location {
    match NormalizeRelativePath(p)
    case PathError(code) => Outside(code)
    case Path(n) =>
      match Walk(base + Split(n))
      case None => Outside("PATH_TRAVERSAL")
      case Some(path) => if base <= path then At(path) else Outside("PATH_TRAVERSAL")
  }

  lemma {:induction false} WalkFrom(base: seq<string>, xs: seq<string>)
    requires NoDots(base) && NoDots(xs)
    ensures Walk(base + xs) == Some(base + xs)
  {
    assert forall k :: 0 <= k < |base + xs| ==> !Dots((base + xs)[k]);
    LegalStays(base + xs);
  }

  /** The join stays strictly below the artifacts directory, so the containment test never fires. */
  lemma StaysBelow(base: seq<string>, p: string)
    requires NoDots(base)
    ensures match NormalizeRelativePath(p)
      case PathError(code) => ArtifactPath(base, p) == Outside(code)
      case Path(n) => ArtifactPath(base, p) == At(base + Split(n)) && base < base + Split(n)
  {
    if NormalizeRelativePath(p).Path? {
      AcceptedIsLegal(p);
      WalkFrom(base, Split(NormalizeRelativePath(p).normal));
    }
  }

  /** Two accepted paths name one file exactly when their normal forms are equal. */
  lemma SameFileSameForm(base: seq<string>, p: string, q: string)
    requires NoDots(base) && NormalizeRelativePath(p).Path? && NormalizeRelativePath(q).Path?
    ensures ArtifactPath(base, p) == ArtifactPath(base, q) <==> NormalizeRelativePath(p) == NormalizeRelativePath(q)
  {
    StaysBelow(base, p);
    StaysBelow(base, q);
    var m, n := NormalizeRelativePath(p).normal, NormalizeRelativePath(q).normal;
    if base + Split(m) == base + Split(n) {
      assert (base + Split(m))[|base|..] == Split(m) && (base + Split(n))[|base|..] == Split(n);
      JoinSplit(m);
      JoinSplit(n);
    }
  }

  // ---------------------------------------------------------------- intents

  /** An intent id that is one name of a directory. */
  predicate SingleSegment(i: string) {
    !Dots(i) && '/' !in i
  }

  /** The artifacts directory of an intent, below the workspace. */
  function ArtifactsDir(root: seq<string>, i: string): seq<string> {
    root + ["intents"] + Split(i) + ["artifacts"]
  }

  lemma DirectoryNames(root: seq<string>, i: string)
    requires NoDots(root) && SingleSegment(i)
    ensures ArtifactsDir(root, i) == root + ["intents", i, "artifacts"] && NoDots(ArtifactsDir(root, i))
    ensures var k := i + "/artifacts"; ArtifactsDir(root, k) == root + ["intents", i, "artifacts", "artifacts"] && NoDots(ArtifactsDir(root, k))
  {
    SplitOne(i);
    assert Join([i, "artifacts"]) == i + "/" + "artifacts" == i + "/artifacts";
    SplitJoin([i, "artifacts"]);
  }

  /** Directories of intents with one name each keep their files apart: two accepted paths name one file if and
      only if intent and normal form are the same. */
  lemma IntentsKeepApart(root: seq<string>, i: string, p: string, k: string, q: string)
    requires NoDots(root) && SingleSegment(i) && SingleSegment(k)
    requires NormalizeRelativePath(p).Path? && NormalizeRelativePath(q).Path?
    ensures ArtifactPath(ArtifactsDir(root, i), p) == ArtifactPath(ArtifactsDir(root, k), q) <==>
      i == k && NormalizeRelativePath(p) == NormalizeRelativePath(q)
  {
    DirectoryNames(root, i);
    DirectoryNames(root, k);
    hide NormalizeRelativePath, ArtifactPath, ArtifactsDir;
    var a, b := ArtifactsDir(root, i), ArtifactsDir(root, k);
    if i == k {
      SameFileSameForm(a, p, q);
    } else {
      StaysBelow(a, p);
      StaysBelow(b, q);
      assert a[|root| + 1] == i && b[|root| + 1] == k;
    }
  }

  lemma LegalPath(base: seq<string>, xs: seq<string>)
    requires NoDots(base) && Legal(xs)
    ensures ArtifactPath(base, Join(xs)) == At(base + xs)
  {
    LegalIsAccepted(xs);
    StaysBelow(base, Join(xs));
    SpelledSlashFree(xs);
    SplitJoin(xs);
    hide NormalizeRelativePath, ArtifactPath;
  }

  /** Without that they do not: a path below `artifacts` of an intent and the rest of it for the intent that goes on
      with `/artifacts` are one file. */
  lemma NestedIntentsCollide(root: seq<string>, i: string, xs: seq<string>)
    requires NoDots(root) && SingleSegment(i) && Legal(xs)
    ensures ArtifactPath(ArtifactsDir(root, i), Join(["artifacts"] + xs)) == ArtifactPath(ArtifactsDir(root, i + "/artifacts"), Join(xs))
  {
    hide ArtifactPath, ArtifactsDir, Join;
    DirectoryNames(root, i);
    ArtifactsLegal(xs);
    LegalPath(ArtifactsDir(root, i), ["artifacts"] + xs);
    LegalPath(ArtifactsDir(root, i + "/artifacts"), xs);
    assert root + ["intents", i, "artifacts"] + (["artifacts"] + xs) == root + ["intents", i, "artifacts", "artifacts"] + xs;
  }

  lemma ArtifactsLegal(xs: seq<string>)
    requires Legal(xs)
    ensures Legal(["artifacts"] + xs)
  {
    assert Spelled("artifacts") && !Dots("artifacts");
    hide Spelled, Dots;
  }
}
