/** The lookups `payload_json LIKE '%"key":"id"%'`: what the wildcard in the key and the case of letters
    make of them on canonical text, exactly. */
module Lookup {
  import opened Strings
  import opened Like
  import opened Json
  import opened JsonText
  import opened Ledger
  import opened Search

  // ---------------------------------------------------------------- characters the wildcard cannot meet

  predicate Letter(c: char) {
    'a' <= Fold(c) <= 'z'
  }

  /** Three characters no canonical text holds in a row: between two letters that are not part of an
      escape there is no quotation mark, backslash or control character. */
  predicate Odd(a: char, b: char, c: char) {
    Letter(a) && (b == '"' || b == '\\' || b < ' ') && Fold(c) == 'i'
  }

  predicate Tame(t: string) {
    forall n :: 0 <= n && n + 2 < |t| ==> !Odd(t[n], t[n+1], t[n+2])
  }

  /** An odd last character is the end of an escape. */
  predicate EndsWell(t: string) {
    t != "" ==> t[|t|-1] >= ' ' && (t[|t|-1] in {'"', '\\'} ==> |t| > 1 && t[|t|-2] == '\\')
  }

  /** An odd first character begins an escape. */
  predicate StartsWell(t: string) {
    t != "" ==> t[0] >= ' ' && t[0] != '"' && (t[0] == '\\' ==> |t| > 1 && Fold(t[1]) != 'i')
  }

  lemma TameAppend(a: string, b: string)
    requires Tame(a) && Tame(b)
    requires |a| > 1 && b != "" ==> EndsWell(a) || Fold(b[0]) != 'i'
    requires a != "" && |b| > 1 ==> StartsWell(b) || !Letter(a[|a|-1])
    ensures Tame(a + b)
  {
    var t := a + b;
    forall n | 0 <= n && n + 2 < |t| ensures !Odd(t[n], t[n+1], t[n+2]) {
      if n + 2 < |a| {
        assert !Odd(a[n], a[n+1], a[n+2]);
      } else if n >= |a| {
        assert !Odd(b[n-|a|], b[n-|a|+1], b[n-|a|+2]);
      }
    }
  }

  /** A separator on either side disturbs nothing. */
  lemma TameMark(t: string, c: char)
    requires Tame(t) && (IsMark(c) || c == '"')
    ensures Tame(t + [c]) && Tame([c] + t)
  {
    TameAppend(t, [c]);
    TameAppend([c], t);
  }

  lemma TameJoin(a: string, c: char, b: string)
    requires Tame(a) && Tame(b) && IsMark(c)
    ensures Tame(a + [c] + b)
  {
    TameMark(a, c);
    TameAppend(a + [c], b);
    hide Tame;
  }

  /** A backslash and a letter. */
  lemma PairTame(d: char)
    requires d >= ' ' && Fold(d) != 'i'
    ensures var e := ['\\', d]; Tame(e) && StartsWell(e) && EndsWell(e)
  {
  }

  predicate Mild(e: string) {
    Tame(e) && StartsWell(e) && EndsWell(e) && e != ""
  }

  lemma EscapeTame(c: char)
    ensures Mild(Escape(c, false))
  {
    PairTame('"');
    PairTame('\\');
    PairTame('n');
    PairTame('r');
    PairTame('t');
    PairTame('b');
    PairTame('f');
    if c as int < 0x20 { UnitTame(c as int); } else if c != '"' && c != '\\' { OneTame(c); }
    EscapeShape(c);
    hide Tame, StartsWell, EndsWell, EscapeUnit, Escape;
  }

  lemma OneTame(c: char)
    requires c as int >= 0x20 && c != '"' && c != '\\'
    ensures Tame([c]) && StartsWell([c]) && EndsWell([c])
  {
  }

  lemma EscapeShape(c: char)
    ensures var e := Escape(c, false);
      || (exists d :: d in {'"', '\\', 'n', 'r', 't', 'b', 'f'} && e == ['\\', d])
      || (c as int < 0x20 && e == EscapeUnit(c as int))
      || (c as int >= 0x20 && c != '"' && c != '\\' && e == [c])
  {
    hide EscapeUnit;
    var e := Escape(c, false);
    if c in {'"', '\\', '\n', '\r', '\t'} || c as int == 8 || c as int == 12 { assert e == ['\\', e[1]]; }
  }

  lemma UnitTame(n: nat)
    requires n < 0x10000
    ensures var e := EscapeUnit(n); Tame(e) && StartsWell(e) && EndsWell(e)
  {
    var e := EscapeUnit(n);
    assert |e| == 6 && e[0] == '\\' && e[1] == 'u';
    assert forall q :: 1 <= q < 6 ==> e[q] >= ' ' && e[q] != '"' && e[q] != '\\';
    hide EscapeUnit;
  }

  lemma {:induction false} EscapesTame(s: string)
    ensures var e := EscapeAll(s, false); Tame(e) && StartsWell(e) && EndsWell(e)
  {
    hide Escape;
    if s != "" {
      var a, b := Escape(s[0], false), EscapeAll(s[1..], false);
      EscapeTame(s[0]);
      EscapesTame(s[1..]);
      TameAppend(a, b);
      hide Tame, EscapeAll;
      Ends(a, b);
      EscapesUnfold(s);
    }
  }

  lemma EscapesUnfold(s: string)
    requires s != ""
    ensures EscapeAll(s, false) == Escape(s[0], false) + EscapeAll(s[1..], false)
  {
    hide Escape;
  }

  lemma Ends(a: string, b: string)
    requires a != "" && StartsWell(a) && EndsWell(a) && StartsWell(b) && EndsWell(b)
    ensures StartsWell(a + b) && EndsWell(a + b)
  {
    assert a[0] == '\\' ==> |a| > 1;
  }

  lemma QuoteTame(s: string)
    ensures Tame(Quote(s, false))
  {
    hide Tame, EscapeAll;
    EscapesTame(s);
    TameMark(EscapeAll(s, false), '"');
    TameMark("\"" + EscapeAll(s, false), '"');
  }

  lemma WordTame(t: string)
    requires forall n :: 0 <= n < |t| ==> t[n] >= ' ' && t[n] != '"' && t[n] != '\\'
    ensures Tame(t)
  {
  }

  lemma {:induction false} DigitsPlain(n: nat)
    ensures forall q :: 0 <= q < |PrintNat(n)| ==> ' ' <= PrintNat(n)[q] <= '9' && PrintNat(n)[q] != '"'
  {
    if n >= 10 { DigitsPlain(n / 10); }
  }

  /** Canonical text has no odd character between two letters. */
  lemma {:induction false} DumpsTame(j: Json)
    ensures Tame(Dumps(j, false))
    decreases j, 1
  {
    hide Tame;
    match j
    case Null => WordTame("null");
    case Bool(b) => WordTame(if b then "true" else "false");
    case Int(i) =>
      DigitsPlain(if i < 0 then -i else i);
      WordTame(PrintInt(i));
    case Str(s) => QuoteTame(s);
    case Arr(xs) =>
      ItemsTame(xs);
      TameMark(PrintItems(xs, false), '[');
      TameMark("[" + PrintItems(xs, false), ']');
    case Obj(m) =>
      var text := PrintMembers(j, SortedKeys(m.Keys), false);
      MembersTame(j, SortedKeys(m.Keys));
      TameMark(text, '{');
      TameMark("{" + text, '}');
  }

  lemma {:induction false} ItemsTame(xs: seq<Json>)
    ensures Tame(PrintItems(xs, false))
    decreases xs, 0
  {
    if xs == [] {
      WordTame("");
    } else {
      DumpsTame(xs[0]);
      ItemsTame(xs[1..]);
      hide Tame, Dumps;
      if |xs| > 1 { TameJoin(Dumps(xs[0], false), ',', PrintItems(xs[1..], false)); }
    }
  }

  lemma {:induction false} MembersTame(j: Json, ks: seq<string>)
    requires j.Obj? && forall k :: k in ks ==> k in j.fields
    ensures Tame(PrintMembers(j, ks, false))
    decreases j, 0, |ks|
  {
    if ks == [] {
      WordTame("");
    } else {
      assert ks[0] in ks;
      QuoteTame(ks[0]);
      DumpsTame(j.fields[ks[0]]);
      MembersTame(j, ks[1..]);
      hide Tame, Dumps, Quote;
      var member := Quote(ks[0], false) + ":" + Dumps(j.fields[ks[0]], false);
      TameJoin(Quote(ks[0], false), ':', Dumps(j.fields[ks[0]], false));
      if |ks| > 1 { TameJoin(member, ',', PrintMembers(j, ks[1..], false)); }
    }
  }

  // ---------------------------------------------------------------- one pattern, many texts

  lemma KeyPlace(k: string)
    requires IsIdKey(k)
    ensures |k| > 3 && k[|k|-3] == '_' && Letter(k[|k|-4]) && k[|k|-2] == 'i' && Letter(k[0]) && NoPercent(k) && k[0] != '_'
    ensures forall n :: 0 <= n < |k| && n != |k| - 3 ==> Letter(k[n]) && k[n] != '_'
  {
  }

  lemma FoldSimple(c: char, d: char)
    requires Fold(c) == Fold(d)
    ensures (c == '"' <==> d == '"') && (c == '\\' <==> d == '\\') && (c < ' ' <==> d < ' ') && (Letter(c) <==> Letter(d))
  {
  }

  /** The wildcard is the one place where a text taken for the key could be printed otherwise. */
  lemma OddOrSimple(k: string, u: string)
    requires IsIdKey(k) && Fits(u, k)
    ensures Simple(u) || Odd(u[|k|-4], u[|k|-3], u[|k|-2])
  {
    KeyPlace(k);
    var w := |k| - 3;
    forall n | 0 <= n < |u| && n != w ensures u[n] != '"' && u[n] != '\\' && u[n] >= ' ' { FoldSimple(k[n], u[n]); }
    FoldSimple(k[w-1], u[w-1]);
  }

  /** Texts taken for a key may be searched for. */
  lemma SimpleSearched(k: string, u: string)
    requires IsIdKey(k) && SimpleFit(u, k)
    ensures Searched(u)
  {
    KeyPlace(k);
    FoldSimple(k[0], u[0]);
  }

  lemma SimpleId(s: string, v: string)
    requires Searchable(s) && Fits(v, s)
    ensures Simple(v)
  {
    forall n | 0 <= n < |v| ensures v[n] != '"' && v[n] != '\\' && v[n] >= ' ' { FoldSimple(s[n], v[n]); }
  }

  /** A tame text has no odd part. */
  lemma OddNotTame(t: string, k: string, u: string, v: string)
    requires |u| == |k| > 3 && Odd(u[|k|-4], u[|k|-3], u[|k|-2]) && Contains(t, Pattern(u, v))
    ensures !Tame(t)
  {
    var p, w := Pattern(u, v), |k| - 3;
    var i: nat :| At(t, i, p);
    Matched(t, i, p);
    assert p[w] == u[w-1] && p[w+1] == u[w] && p[w+2] == u[w+1];
    assert t[i + w] == p[w] && t[i + (w + 1)] == p[w+1] && t[i + (w + 2)] == p[w+2];
  }

  /** A text that fits the pattern has the pattern's form. */
  lemma PatternSplits(t: string, k: string, s: string) returns (u: string, v: string)
    requires Fits(t, Pattern(k, s))
    ensures t == Pattern(u, v) && Fits(u, k) && Fits(v, s)
  {
    var p, a, b := Pattern(k, s), 1 + |k|, 4 + |k|;
    u, v := t[1..a], t[b..b+|s|];
    forall n | 0 <= n < |k| ensures k[n] == '_' || Fold(k[n]) == Fold(u[n]) { assert p[1+n] == k[n] && t[1+n] == u[n]; }
    forall n | 0 <= n < |s| ensures s[n] == '_' || Fold(s[n]) == Fold(v[n]) { assert p[b+n] == s[n] && t[b+n] == v[n]; }
    forall n | 0 <= n < |p| && p[n] in {'"', ':'} ensures t[n] == p[n] { }
    assert p[0] == '"' && p[a] == '"' && p[a+1] == ':' && p[a+2] == '"' && p[b+|s|] == '"';
    SameText(t, Pattern(u, v), a, b, |s|);
  }

  lemma SameText(t: string, q: string, a: nat, b: nat, n: nat)
    requires b == a + 3 && |t| == |q| == b + n + 1 && a >= 1
    requires t[1..a] == q[1..a] && t[b..b+n] == q[b..b+n]
    requires t[0] == q[0] && t[a] == q[a] && t[a+1] == q[a+1] && t[a+2] == q[a+2] && t[b+n] == q[b+n]
    ensures t == q
  {
    forall m | 0 <= m < |t| ensures t[m] == q[m] {
      if 1 <= m < a { assert t[1..a][m-1] == q[1..a][m-1]; }
      if b <= m < b + n { assert t[b..b+n][m-b] == q[b..b+n][m-b]; }
    }
  }

  lemma PatternFits(k: string, s: string, u: string, v: string)
    requires Fits(u, k) && Fits(v, s)
    ensures Fits(Pattern(u, v), Pattern(k, s))
  {
    var p, q, b := Pattern(k, s), Pattern(u, v), 4 + |k|;
    forall n | 0 <= n < |p| ensures p[n] == '_' || Fold(p[n]) == Fold(q[n]) {
      if 1 <= n < 1 + |k| { assert p[n] == k[n-1] && q[n] == u[n-1]; }
      if b <= n < b + |s| { assert p[n] == s[n-b] && q[n] == v[n-b]; }
    }
  }

  // ---------------------------------------------------------------- documents

  /** Shown under a text taken for the key, as a text taken for the id. */
  lemma {:induction false} ShowsAnswers(j: Json, k: string, s: string, u: string, v: string)
    requires SimpleFit(u, k) && Fits(v, s) && Shows(j, u, v)
    ensures Answers(j, k, s)
  {
    hide Fits, Simple;
    match j
    case Obj(m) =>
      var x :| x in m && ((Names(x, u) && m[x] == Str(v)) || Shows(m[x], u, v));
      if Shows(m[x], u, v) { ShowsAnswers(m[x], k, s, u, v); } else { NamesReaches(x, k, u); }
    case Arr(xs) =>
      var i :| 0 <= i < |xs| && Shows(xs[i], u, v);
      ShowsAnswers(xs[i], k, s, u, v);
  }

  lemma NamesReaches(x: string, k: string, u: string)
    requires SimpleFit(u, k) && Names(x, u)
    ensures Reaches(x, k)
  {
  }

  lemma ReachesNames(x: string, k: string) returns (u: string)
    requires Reaches(x, k)
    ensures SimpleFit(u, k) && Names(x, u)
  {
    u := if SimpleFit(x, k) then x else x[|x|-|k|..];
  }

  lemma {:induction false} AnswersShows(j: Json, k: string, s: string) returns (u: string, v: string)
    requires Answers(j, k, s)
    ensures SimpleFit(u, k) && Fits(v, s) && Shows(j, u, v)
  {
    hide Fits, Simple;
    match j
    case Obj(m) =>
      var x :| x in m && ((Reaches(x, k) && m[x].Str? && Fits(m[x].s, s)) || Answers(m[x], k, s));
      if Answers(m[x], k, s) {
        u, v := AnswersShows(m[x], k, s);
      } else {
        u := ReachesNames(x, k);
        v := m[x].s;
      }
    case Arr(xs) =>
      var i :| 0 <= i < |xs| && Answers(xs[i], k, s);
      u, v := AnswersShows(xs[i], k, s);
  }

  lemma PatternPlain(k: string, s: string)
    requires IsIdKey(k) && NoPercent(s)
    ensures NoPercent(Pattern(k, s))
  {
    KeyPlace(k);
    var p, b := Pattern(k, s), 4 + |k|;
    forall n | 0 <= n < |p| ensures p[n] != '%' {
      if 1 <= n < 1 + |k| { assert p[n] == k[n-1]; }
      if b <= n < b + |s| { assert p[n] == s[n-b]; }
    }
  }

  lemma ContainsWithin(t: string, k: string, s: string, u: string, v: string)
    requires Fits(u, k) && Fits(v, s) && Contains(t, Pattern(u, v))
    ensures Within(Pattern(k, s), t)
  {
    hide Fits, Pattern;
    var i: nat :| At(t, i, Pattern(u, v));
    PatternFits(k, s, u, v);
    assert Fits(t[i..i+|Pattern(u, v)|], Pattern(k, s));
  }

  lemma WithinContains(t: string, k: string, s: string) returns (u: string, v: string)
    requires Within(Pattern(k, s), t)
    ensures Fits(u, k) && Fits(v, s) && Contains(t, Pattern(u, v))
  {
    hide Fits, Pattern;
    var i: nat, j: nat :| i <= j <= |t| && Fits(t[i..j], Pattern(k, s));
    u, v := PatternSplits(t[i..j], k, s);
    assert At(t, i, Pattern(u, v));
  }

  /** On canonical text the lookup of a searchable id finds the document exactly when, at some depth, a
      key taken for the looked-up key holds a string equal to the id up to the case of letters. */
  lemma LookupFinds(j: Json, k: string, s: string)
    requires IsIdKey(k) && Searchable(s)
    ensures Matches(Query(k, s), Dumps(j, false)) <==> Answers(j, k, s)
  {
    hide *;
    hide Fits, Simple, Searchable, Tame, Odd, Matches, Shows, Contains, Dumps, Pattern, Within, Answers;
    var t := Dumps(j, false);
    SearchableOpen(s);
    PatternPlain(k, s);
    AroundMatches(Pattern(k, s), t);
    QueryIs(k, s);
    if Within(Pattern(k, s), t) {
      var u, v := WithinContains(t, k, s);
      FoundFits(j, k, s, u, v);
    }
    if Answers(j, k, s) {
      var u, v := AnswersShows(j, k, s);
      ShownFits(j, k, s, u, v);
    }
  }

  lemma SearchableOpen(s: string)
    requires Searchable(s)
    ensures NoPercent(s)
  {
  }

  lemma QueryIs(k: string, s: string)
    ensures Query(k, s) == "%" + Pattern(k, s) + "%"
  {
  }

  lemma FoundFits(j: Json, k: string, s: string, u: string, v: string)
    requires IsIdKey(k) && Searchable(s) && Fits(u, k) && Fits(v, s) && Contains(Dumps(j, false), Pattern(u, v))
    ensures Answers(j, k, s)
  {
    hide Simple, Searchable, Tame, Odd, Shows, Contains, Dumps, Pattern, Answers;
    KeyPlace(k);
    DumpsTame(j);
    OddOrSimple(k, u);
    if !Simple(u) { OddNotTame(Dumps(j, false), k, u, v); }
    SimpleSearched(k, u);
    SimpleId(s, v);
    SearchFinds(j, u, v);
    ShowsAnswers(j, k, s, u, v);
  }

  lemma ShownFits(j: Json, k: string, s: string, u: string, v: string)
    requires IsIdKey(k) && Searchable(s) && SimpleFit(u, k) && Fits(v, s) && Shows(j, u, v)
    ensures Within(Pattern(k, s), Dumps(j, false))
  {
    hide Simple, Searchable, Shows, Contains, Dumps, Pattern, Within, Fits;
    SimpleSearched(k, u);
    SimpleId(s, v);
    SearchFinds(j, u, v);
    ContainsWithin(Dumps(j, false), k, s, u, v);
  }

  /** So for a written event. */
  lemma LookupWritten(e: Event, k: string, s: string)
    requires e.payload.Parsed? && e.payload == Written(e.payload.value) && IsIdKey(k) && Searchable(s)
    ensures Refers(e, k, s) <==> Answers(e.payload.value, k, s)
  {
    hide Matches, Answers, Query, Dumps;
    LookupFinds(e.payload.value, k, s);
  }

  /** The ids that a lookup of `s` finds an event by. */
  ghost predicate FoundBy(e: Event, k: string, s: string) {
    exists v :: Mentioned(e, k, v) && Fits(v, s)
  }

  /** A written event whose keys are straight is found by the ids it mentions, in either case of letters. */
  lemma LookupIsMention(e: Event, k: string, s: string)
    requires e.payload.Parsed? && e.payload == Written(e.payload.value) && StraightKeys(e.payload.value)
    requires IsIdKey(k) && Searchable(s)
    ensures Refers(e, k, s) <==> FoundBy(e, k, s)
  {
    hide Matches, Answers, Mentions, StraightKeys, Fits, Query, Written;
    LookupWritten(e, k, s);
    StraightAnswers(e.payload.value, k, s);
    assert forall v :: Mentioned(e, k, v) <==> Mentions(e.payload.value, k, v);
  }

  // ---------------------------------------------------------------- documents that mislead

  /** The document with one key and one text. */
  function Single(x: string, v: string): Json {
    Obj(map[x := Str(v)])
  }

  /** A key taken for another misleads the lookup. */
  lemma TakenKeyMisleads(x: string, k: string, s: string)
    requires IsIdKey(k) && Searchable(s) && Reaches(x, k) && x != k
    ensures Matches(Query(k, s), Dumps(Single(x, s), false)) && !Mentions(Single(x, s), k, s)
  {
    hide Matches, Reaches, Query, Dumps;
    var m := map[x := Str(s)];
    SelfFits(s);
    assert x in m && m[x] == Str(s);
    LookupFinds(Obj(m), k, s);
  }

  /** Three such keys: the wildcard, the case of letters, and a quotation mark. */
  lemma MisleadingKeys()
    ensures forall x :: x in {"run-id", "RUN_ID", "x\"run_id"} ==>
      Matches(Query("run_id", "r"), Dumps(Single(x, "r"), false)) && !Mentions(Single(x, "r"), "run_id", "r")
  {
    hide Matches, Query, Dumps, Mentions;
    forall x | x in {"run-id", "RUN_ID", "x\"run_id"}
      ensures Matches(Query("run_id", "r"), Dumps(Single(x, "r"), false)) && !Mentions(Single(x, "r"), "run_id", "r")
    {
      Misleading(x);
      TakenKeyMisleads(x, "run_id", "r");
    }
  }

  lemma Misleading(x: string)
    requires x in {"run-id", "RUN_ID", "x\"run_id"}
    ensures Reaches(x, "run_id") && x != "run_id"
  {
    if x == "x\"run_id" {
      assert x[2..] == "run_id";
      SelfReached("run_id");
    } else {
      SixFit(x);
    }
  }

  lemma SixFit(x: string)
    requires x in {"run-id", "RUN_ID"}
    ensures SimpleFit(x, "run_id")
  {
    var k := "run_id";
    forall n | 0 <= n < 6 ensures (k[n] == '_' || Fold(k[n]) == Fold(x[n])) && x[n] != '"' && x[n] != '\\' && x[n] >= ' ' {
      if n == 0 { } else if n == 1 { } else if n == 2 { } else if n == 3 { } else if n == 4 { } else { }
    }
  }

  /** Two ids that differ in the case of letters are taken for each other. */
  lemma CaseMisleads()
    ensures Matches(Query("run_id", "r"), Dumps(Single("run_id", "R"), false)) && !Mentions(Single("run_id", "R"), "run_id", "r")
  {
    hide Matches, Query, Dumps;
    var m := map["run_id" := Str("R")];
    SelfReached("run_id");
    assert "run_id" in m && m["run_id"] == Str("R") && Fits("R", "r");
    hide Reaches, Fits;
    LookupFinds(Obj(m), "run_id", "r");
  }

  /** An id with a wildcard is found in documents that hold another. */
  lemma WildcardMisleads()
    ensures Matches(Query("run_id", "_"), Dumps(Single("run_id", "r"), false)) && !Mentions(Single("run_id", "r"), "run_id", "_")
  {
    hide Matches, Dumps;
    var j := Single("run_id", "r");
    assert "run_id" in j.fields && Names("run_id", "run_id") && Fits("r", "_");
    SearchFinds(j, "run_id", "r");
    SelfFits("run_id");
    ContainsWithin(Dumps(j, false), "run_id", "_", "run_id", "r");
    PatternPlain("run_id", "_");
    AroundMatches(Pattern("run_id", "_"), Dumps(j, false));
  }
}
