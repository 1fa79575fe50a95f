/** SQLite's `LIKE` without `ESCAPE`: `%` stands for any text, `_` for any one character, and ASCII
    letters match in either case. */
module Like {
  /** Upper-case ASCII letters become lower-case ones; every other character stays. */
  function Fold(c: char): char {
    if 'A' <= c <= 'Z' then ((c as int) + 32) as char else c
  }

  /** The text matches the pattern. */
  predicate Matches(p: string, t: string)
    decreases |p| + |t|
  {
    if p == "" then t == ""
    else if p[0] == '%' then Matches(p[1..], t) || (t != "" && Matches(p, t[1..]))
    else t != "" && (p[0] == '_' || Fold(p[0]) == Fold(t[0])) && Matches(p[1..], t[1..])
  }

  /** The text is one of those a pattern without `%` stands for. */
  predicate Fits(u: string, p: string) {
    |u| == |p| && forall n :: 0 <= n < |p| ==> p[n] == '_' || Fold(p[n]) == Fold(u[n])
  }

  predicate NoPercent(p: string) {
    forall n :: 0 <= n < |p| ==> p[n] != '%'
  }

  /** Somewhere in the text. */
  ghost predicate Within(p: string, t: string) {
    exists i: nat, j: nat :: i <= j <= |t| && Fits(t[i..j], p)
  }

  /** A trailing `%` leaves the rest of the text open. */
  lemma {:induction false} PrefixMatches(p: string, t: string)
    requires NoPercent(p)
    ensures Matches(p + "%", t) <==> exists j: nat :: j <= |t| && Fits(t[..j], p)
  {
    if p == "" {
      AnyMatches(t);
      assert p + "%" == "%" && Fits(t[..0], p);
    } else {
      assert (p + "%")[0] == p[0] && (p + "%")[1..] == p[1..] + "%";
      if t != "" {
        PrefixMatches(p[1..], t[1..]);
        if j: nat :| j <= |t| && Fits(t[..j], p) { FitsTail(t[..j], p); assert t[..j][1..] == t[1..][..j-1]; }
        if j: nat :| j <= |t[1..]| && Fits(t[1..][..j], p[1..]) && (p[0] == '_' || Fold(p[0]) == Fold(t[0])) {
          assert t[..j+1][1..] == t[1..][..j] && t[..j+1][0] == t[0];
          FitsTail(t[..j+1], p);
        }
      }
    }
  }

  lemma FitsTail(u: string, p: string)
    requires p != "" && u != ""
    ensures Fits(u, p) <==> (p[0] == '_' || Fold(p[0]) == Fold(u[0])) && Fits(u[1..], p[1..])
  {
    if Fits(u[1..], p[1..]) && (p[0] == '_' || Fold(p[0]) == Fold(u[0])) {
      forall n | 0 <= n < |p| ensures p[n] == '_' || Fold(p[n]) == Fold(u[n]) {
        if n > 0 { assert p[1..][n-1] == p[n] && u[1..][n-1] == u[n]; }
      }
    }
  }

  lemma {:induction false} AnyMatches(t: string)
    ensures Matches("%", t)
  {
    assert "%"[1..] == "";
    if t != "" { AnyMatches(t[1..]); }
  }

  /** Between two `%` the pattern may occur anywhere. */
  lemma {:induction false} AroundMatches(p: string, t: string)
    requires NoPercent(p)
    ensures Matches("%" + p + "%", t) <==> Within(p, t)
  {
    var q := p + "%";
    assert "%" + p + "%" == "%" + q && ("%" + q)[1..] == q;
    PrefixMatches(p, t);
    if j: nat :| j <= |t| && Fits(t[..j], p) { assert t[0..j] == t[..j]; }
    if t != "" {
      AroundMatches(p, t[1..]);
      if i: nat, j: nat :| i <= j <= |t[1..]| && Fits(t[1..][i..j], p) { assert t[1..][i..j] == t[i+1..j+1]; }
    }
    if i: nat, j: nat :| i <= j <= |t| && Fits(t[i..j], p) {
      if i == 0 {
        assert t[0..j] == t[..j];
      } else {
        var h: nat, l: nat := i - 1, j - 1;
        assert t[1..][h..l] == t[i..j];
      }
    }
  }

  // ---------------------------------------------------------------- the patterns the code builds

  /** Text that JSON prints as it is. */
  predicate Simple(s: string) {
    forall n :: 0 <= n < |s| ==> s[n] != '"' && s[n] != '\\' && s[n] >= ' '
  }

  /** An id whose pattern stands for itself, up to case: nothing to escape and no wildcard. */
  predicate Searchable(s: string) {
    Simple(s) && forall n :: 0 <= n < |s| ==> s[n] != '%' && s[n] != '_'
  }

  /** `"k":"s"`. */
  function Pattern(k: string, s: string): string {
    "\"" + k + "\":\"" + s + "\""
  }

  /** `%"k":"s"%`. */
  function Query(k: string, s: string): string {
    "%" + Pattern(k, s) + "%"
  }

  predicate IsIdKey(k: string) {
    k == "intent_id" || k == "run_id" || k == "session_id"
  }

  /** A key `x` of a document is taken for the key `k`: all of it, or what follows a quotation mark. */
  predicate Reaches(x: string, k: string) {
    SimpleFit(x, k) || (|x| > |k| && x[|x|-|k|-1] == '"' && SimpleFit(x[|x|-|k|..], k))
  }

  predicate SimpleFit(u: string, p: string) {
    Simple(u) && Fits(u, p)
  }

  /** Only the key itself is taken for one of the three keys. */
  ghost predicate Straight(x: string) {
    forall k :: IsIdKey(k) && Reaches(x, k) ==> x == k
  }

  lemma SelfReached(k: string)
    requires IsIdKey(k)
    ensures Reaches(k, k)
  {
  }

  lemma SelfFits(s: string)
    ensures Fits(s, s)
  {
  }

  /** Ids in use: each searchable, no two alike but for the case of letters. */
  ghost predicate Distinguished(ids: iset<string>) {
    && (forall s :: s in ids ==> Searchable(s))
    && forall s, u :: s in ids && u in ids && Fits(u, s) ==> u == s
  }
}
