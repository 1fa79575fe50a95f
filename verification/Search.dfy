/** What it means for a document that `"key":"text"` occurs, letter by letter, in its canonical text. */
module Search {
  import opened Strings
  import opened Json
  import opened JsonText
  import opened Like

  ghost predicate At(t: string, i: nat, p: string) {
    i + |p| <= |t| && t[i..i + |p|] == p
  }

  /** The pattern occurs in the text. */
  ghost predicate Contains(t: string, p: string) {
    exists i: nat :: At(t, i, p)
  }

  predicate IsMark(c: char) {
    c in {'[', ']', '{', '}', ',', ':'}
  }

  /** A key that may be looked for. */
  predicate Searched(k: string) {
    k != "" && Simple(k) && !IsMark(k[0])
  }

  predicate NoQuote(s: string) {
    forall n :: 0 <= n < |s| ==> s[n] != '"'
  }

  /** The name is the key, or ends in a quotation mark and the key. */
  predicate Names(x: string, k: string) {
    x == k || (|x| > |k| && x[|x|-|k|-1] == '"' && x[|x|-|k|..] == k)
  }

  /** At any depth of the document, a name of `k` holds the string `s`. */
  predicate Shows(j: Json, k: string, s: string) {
    match j
    case Obj(m) => exists x :: x in m && ((Names(x, k) && m[x] == Str(s)) || Shows(m[x], k, s))
    case Arr(xs) => exists i :: 0 <= i < |xs| && Shows(xs[i], k, s)
    case _ => false
  }

  // ---------------------------------------------------------------- tokens

  datatype Token = Key(raw: string) | Val(raw: string) | Mark(c: char) | Word(text: string)

  function Spelling(t: Token): string {
    match t
    case Key(raw) => "\"" + raw + "\""
    case Val(raw) => "\"" + raw + "\""
    case Mark(c) => [c]
    case Word(text) => text
  }

  function Spell(ts: seq<Token>): string {
    if ts == [] then "" else Spelling(ts[0]) + Spell(ts[1..])
  }

  function Tokens(j: Json): (ts: seq<Token>)
    ensures ts != []
    decreases j, 1
  {
    match j
    case Str(s) => [Val(EscapeAll(s, false))]
    case Arr(xs) => [Mark('[')] + ItemTokens(xs) + [Mark(']')]
    case Obj(m) => [Mark('{')] + MemberTokens(j, SortedKeys(m.Keys)) + [Mark('}')]
    case _ => [Word(Dumps(j, false))]
  }

  function ItemTokens(xs: seq<Json>): seq<Token>
    decreases xs, 0
  {
    if xs == [] then []
    else if |xs| == 1 then Tokens(xs[0])
    else Tokens(xs[0]) + [Mark(',')] + ItemTokens(xs[1..])
  }

  function MemberTokens(j: Json, ks: seq<string>): seq<Token>
    requires j.Obj? && forall k | k in ks :: k in j.fields
    decreases j, 0, |ks|
  {
    if ks == [] then []
    else
      var member := [Key(EscapeAll(ks[0], false)), Mark(':')] + Tokens(j.fields[ks[0]]);
      if |ks| == 1 then member else member + [Mark(',')] + MemberTokens(j, ks[1..])
  }

  lemma {:induction false} SpellAppend(a: seq<Token>, b: seq<Token>)
    ensures Spell(a + b) == Spell(a) + Spell(b)
  {
    if a == [] {
      assert a + b == b;
    } else {
      SpellAppend(a[1..], b);
      assert (a + b)[1..] == a[1..] + b && (a + b)[0] == a[0];
      hide Spelling;
    }
  }

  lemma SpellOne(t: Token)
    ensures Spell([t]) == Spelling(t)
  {
    assert [t][1..] == [];
  }

  lemma SpellThree(a: seq<Token>, c: char, b: seq<Token>)
    ensures Spell(a + [Mark(c)] + b) == Spell(a) + [c] + Spell(b)
  {
    SpellAppend(a + [Mark(c)], b);
    SpellAppend(a, [Mark(c)]);
    SpellOne(Mark(c));
  }

  lemma SpellWrapped(open: char, ts: seq<Token>, close: char)
    ensures Spell([Mark(open)] + ts + [Mark(close)]) == [open] + Spell(ts) + [close]
  {
    SpellAppend([Mark(open)] + ts, [Mark(close)]);
    SpellAppend([Mark(open)], ts);
    SpellOne(Mark(open));
    SpellOne(Mark(close));
  }

  lemma SpellMember(raw: string, ts: seq<Token>)
    ensures Spell([Key(raw), Mark(':')] + ts) == "\"" + raw + "\"" + ":" + Spell(ts)
  {
    var all := [Key(raw), Mark(':')] + ts;
    assert all[1..] == [Mark(':')] + ts && all[1..][1..] == ts;
  }

  /** The printed text is its tokens, spelled one after the other. */
  lemma {:induction false} TokensSpell(j: Json)
    ensures Spell(Tokens(j)) == Dumps(j, false)
    decreases j, 1
  {
    match j
    case Str(s) => SpellOne(Val(EscapeAll(s, false)));
    case Arr(xs) => ItemsSpell(xs); SpellWrapped('[', ItemTokens(xs), ']');
    case Obj(m) => MembersSpell(j, SortedKeys(m.Keys)); SpellWrapped('{', MemberTokens(j, SortedKeys(m.Keys)), '}');
    case _ => SpellOne(Word(Dumps(j, false)));
  }

  lemma {:induction false} ItemsSpell(xs: seq<Json>)
    ensures Spell(ItemTokens(xs)) == PrintItems(xs, false)
    decreases xs, 0
  {
    if xs != [] {
      TokensSpell(xs[0]);
      ItemsSpell(xs[1..]);
      SpellThree(Tokens(xs[0]), ',', ItemTokens(xs[1..]));
    }
  }

  lemma {:induction false} MembersSpell(j: Json, ks: seq<string>)
    requires j.Obj? && forall k :: k in ks ==> k in j.fields
    ensures Spell(MemberTokens(j, ks)) == PrintMembers(j, ks, false)
    decreases j, 0, |ks|
  {
    if ks != [] {
      assert ks[0] in ks;
      var v := j.fields[ks[0]];
      TokensSpell(v);
      MembersSpell(j, ks[1..]);
      SpellMember(EscapeAll(ks[0], false), Tokens(v));
      hide Tokens, Dumps;
      var member := [Key(EscapeAll(ks[0], false)), Mark(':')] + Tokens(v);
      if |ks| > 1 { SpellThree(member, ',', MemberTokens(j, ks[1..])); }
    }
  }

  // ---------------------------------------------------------------- tokens and mentions

  /** Key, colon and text in a row. */
  predicate Triple(ts: seq<Token>, k: string, s: string) {
    |ts| >= 3 && ts[0].Key? && Names(ts[0].raw, k) && ts[1] == Mark(':') && ts[2] == Val(s)
  }

  predicate Found(ts: seq<Token>, k: string, s: string) {
    ts != [] && (Triple(ts, k, s) || Found(ts[1..], k, s))
  }

  /** A value's last token. */
  predicate Closes(t: Token) {
    !t.Key? && t != Mark(':')
  }

  lemma {:induction false} FoundAppend(a: seq<Token>, b: seq<Token>, k: string, s: string)
    requires a == [] || Closes(a[|a|-1])
    ensures Found(a + b, k, s) <==> Found(a, k, s) || Found(b, k, s)
  {
    if a == [] {
      assert a + b == b;
    } else {
      assert (a + b)[1..] == a[1..] + b;
      FoundAppend(a[1..], b, k, s);
      if |a| == 1 { assert a[0] == a[|a|-1]; }
      if |a| == 2 { assert a[1] == a[|a|-1]; }
    }
  }

  lemma FoundMark(c: char, k: string, s: string)
    ensures !Found([Mark(c)], k, s)
  {
  }

  /** Around a value, separators find nothing. */
  lemma FoundWrapped(open: char, ts: seq<Token>, close: char, k: string, s: string)
    requires open != ':' && (ts == [] || Closes(ts[|ts|-1]))
    ensures Found([Mark(open)] + ts + [Mark(close)], k, s) <==> Found(ts, k, s)
  {
    FoundMark(open, k, s);
    FoundMark(close, k, s);
    FoundAppend([Mark(open)], ts, k, s);
    FoundAppend([Mark(open)] + ts, [Mark(close)], k, s);
    hide Found;
  }

  lemma FoundList(a: seq<Token>, b: seq<Token>, k: string, s: string)
    requires a != [] && Closes(a[|a|-1])
    ensures Found(a + [Mark(',')] + b, k, s) <==> Found(a, k, s) || Found(b, k, s)
  {
    FoundMark(',', k, s);
    FoundAppend(a, [Mark(',')], k, s);
    FoundAppend(a + [Mark(',')], b, k, s);
    hide Found;
  }

  lemma FoundMember(raw: string, ts: seq<Token>, k: string, s: string)
    requires ts != []
    ensures Found([Key(raw), Mark(':')] + ts, k, s) <==> (Names(raw, k) && ts[0] == Val(s)) || Found(ts, k, s)
  {
    var all := [Key(raw), Mark(':')] + ts;
    assert all[1..] == [Mark(':')] + ts && all[1..][1..] == ts;
  }

  /** Every document ends in a token that closes a value. */
  lemma {:induction false} TokensClose(j: Json)
    ensures Closes(Tokens(j)[|Tokens(j)|-1])
  {
  }

  lemma {:induction false} ItemsClose(xs: seq<Json>)
    ensures xs != [] ==> ItemTokens(xs) != [] && Closes(ItemTokens(xs)[|ItemTokens(xs)|-1])
  {
    if xs != [] {
      TokensClose(xs[0]);
      ItemsClose(xs[1..]);
    }
  }

  lemma {:induction false} MembersClose(j: Json, ks: seq<string>)
    requires j.Obj? && forall k :: k in ks ==> k in j.fields
    ensures ks != [] ==> MemberTokens(j, ks) != [] && Closes(MemberTokens(j, ks)[|MemberTokens(j, ks)|-1])
  {
    if ks != [] {
      assert ks[0] in ks;
      TokensClose(j.fields[ks[0]]);
      MembersClose(j, ks[1..]);
      hide Tokens;
    }
  }

  lemma {:induction false} SimpleEscaped(s: string)
    requires Simple(s)
    ensures EscapeAll(s, false) == s
  {
    if s != "" {
      SimpleEscaped(s[1..]);
      assert s == [s[0]] + s[1..];
    }
  }

  /** Simple text is printed by itself only. */
  lemma EscapedSimple(x: string, s: string)
    requires Simple(s)
    ensures EscapeAll(x, false) == s <==> x == s
  {
    SimpleEscaped(s);
    if EscapeAll(x, false) == s {
      StringRead(x, false, "");
      StringRead(s, false, "");
    }
  }

  /** The value is exactly the text `s`. */
  lemma FirstToken(j: Json, s: string)
    requires Simple(s)
    ensures Tokens(j)[0] == Val(s) <==> j == Str(s)
  {
    if j.Str? { EscapedSimple(j.s, s); }
  }

  /** Where an escaped quotation mark comes from. */
  lemma {:induction false} QuoteOrigin(x: string, q: nat) returns (n: nat)
    requires q < |EscapeAll(x, false)| && EscapeAll(x, false)[q] == '"'
    ensures n < |x| && x[n] == '"' && EscapeAll(x[n+1..], false) == EscapeAll(x, false)[q+1..]
  {
    hide Escape, Escaped;
    var head := Escape(x[0], false);
    CharEscaped(x[0]);
    assert EscapeAll(x, false) == head + EscapeAll(x[1..], false);
    if q < |head| {
      n := 0;
    } else {
      n := QuoteOrigin(x[1..], q - |head|);
      n := n + 1;
      assert x[1..][n..] == x[n+1..];
    }
  }

  lemma {:induction false} EscapeSplit(a: string, b: string)
    ensures EscapeAll(a + b, false) == EscapeAll(a, false) + EscapeAll(b, false)
  {
    hide Escape;
    if a == "" {
      assert a + b == b;
    } else {
      EscapeSplit(a[1..], b);
      assert (a + b)[1..] == a[1..] + b && (a + b)[0] == a[0];
    }
  }

  /** A key names `k` in the text exactly when it does in the document. */
  lemma EscapedNames(x: string, k: string)
    requires Simple(k)
    ensures Names(EscapeAll(x, false), k) <==> Names(x, k)
  {
    hide EscapeAll;
    EscapedSimple(x, k);
    var raw := EscapeAll(x, false);
    if |raw| > |k| && raw[|raw|-|k|-1] == '"' && raw[|raw|-|k|..] == k {
      var n := QuoteOrigin(x, |raw| - |k| - 1);
      EscapedSimple(x[n+1..], k);
      assert |x| - |k| - 1 == n;
    }
    if |x| > |k| && x[|x|-|k|-1] == '"' && x[|x|-|k|..] == k { SuffixEscaped(x, k); }
  }

  lemma SuffixEscaped(x: string, k: string)
    requires Simple(k) && |x| > |k| && x[|x|-|k|-1] == '"' && x[|x|-|k|..] == k
    ensures var raw := EscapeAll(x, false); |raw| > |k| && raw[|raw|-|k|-1] == '"' && raw[|raw|-|k|..] == k
  {
    var a := x[..|x|-|k|-1];
    assert x == a + "\"" + k;
    EscapeSplit(a + "\"", k);
    EscapeSplit(a, "\"");
    SimpleEscaped(k);
    assert EscapeAll("\"", false) == "\\\"" + EscapeAll("\""[1..], false);
    hide EscapeAll;
  }

  /** Three tokens in a row are found exactly when the document shows the id under the key. */
  lemma {:induction false} FoundIsShown(j: Json, k: string, s: string)
    requires Simple(k) && Simple(s)
    ensures Found(Tokens(j), k, s) <==> Shows(j, k, s)
    decreases j, 1
  {
    match j
    case Arr(xs) =>
      ItemsClose(xs);
      FoundWrapped('[', ItemTokens(xs), ']', k, s);
      ItemsFound(xs, k, s);
      hide Tokens, ItemTokens, Found;
    case Obj(m) =>
      var ks := SortedKeys(m.Keys);
      MembersClose(j, ks);
      FoundWrapped('{', MemberTokens(j, ks), '}', k, s);
      MembersFound(j, ks, k, s);
    case _ =>
  }

  lemma {:induction false} ItemsFound(xs: seq<Json>, k: string, s: string)
    requires Simple(k) && Simple(s)
    ensures Found(ItemTokens(xs), k, s) <==> exists i :: 0 <= i < |xs| && Shows(xs[i], k, s)
    decreases xs, 0
  {
    if xs != [] {
      FoundIsShown(xs[0], k, s);
      ItemsFound(xs[1..], k, s);
      TokensClose(xs[0]);
      hide Tokens, Found, Shows;
      if |xs| > 1 { FoundList(Tokens(xs[0]), ItemTokens(xs[1..]), k, s); }
      SomeItem(xs, k, s);
    }
  }

  lemma SomeItem(xs: seq<Json>, k: string, s: string)
    requires xs != []
    ensures (exists i :: 0 <= i < |xs| && Shows(xs[i], k, s)) <==>
      Shows(xs[0], k, s) || exists i :: 0 <= i < |xs[1..]| && Shows(xs[1..][i], k, s)
  {
    hide Shows;
    if i :| 0 <= i < |xs| && Shows(xs[i], k, s) {
      if i > 0 { assert xs[1..][i-1] == xs[i]; }
    }
  }

  /** A member of one of the keys. */
  predicate MemberShows(j: Json, x: string, k: string, s: string)
    requires j.Obj? && x in j.fields
  {
    (Names(x, k) && j.fields[x] == Str(s)) || Shows(j.fields[x], k, s)
  }

  lemma {:induction false} MembersFound(j: Json, ks: seq<string>, k: string, s: string)
    requires j.Obj? && Simple(k) && Simple(s) && forall x :: x in ks ==> x in j.fields
    ensures Found(MemberTokens(j, ks), k, s) <==> exists x :: x in ks && MemberShows(j, x, k, s)
    decreases j, 0, |ks|
  {
    if ks != [] {
      assert ks[0] in ks;
      var v := j.fields[ks[0]];
      FoundIsShown(v, k, s);
      MembersFound(j, ks[1..], k, s);
      TokensClose(v);
      EscapedNames(ks[0], k);
      FirstToken(v, s);
      FoundMember(EscapeAll(ks[0], false), Tokens(v), k, s);
      var member := [Key(EscapeAll(ks[0], false)), Mark(':')] + Tokens(v);
      if |ks| > 1 { FoundList(member, MemberTokens(j, ks[1..]), k, s); }
      SomeMember(j, ks, k, s);
      hide Tokens, Found, Shows, EscapeAll, Names;
    }
  }

  lemma SomeMember(j: Json, ks: seq<string>, k: string, s: string)
    requires j.Obj? && ks != [] && forall x :: x in ks ==> x in j.fields
    ensures (exists x :: x in ks && MemberShows(j, x, k, s)) <==>
      MemberShows(j, ks[0], k, s) || exists x :: x in ks[1..] && MemberShows(j, x, k, s)
  {
    hide MemberShows;
    assert forall x :: x in ks <==> x == ks[0] || x in ks[1..];
  }

  // ---------------------------------------------------------------- text and tokens

  /** Every quotation mark is escaped. */
  predicate Escaped(raw: string) {
    forall q :: 0 <= q < |raw| && raw[q] == '"' ==> q > 0 && raw[q-1] == '\\'
  }

  predicate WellSpelled(t: Token) {
    match t
    case Key(raw) => Escaped(raw)
    case Val(raw) => Escaped(raw)
    case Mark(c) => IsMark(c)
    case Word(text) => text != "" && NoQuote(text)
  }

  /** A key is followed by a colon, a colon by a value, a text value by a separator. */
  predicate Follows(a: Token, b: Token) {
    && (a.Key? ==> b == Mark(':'))
    && (a == Mark(':') ==> !b.Key?)
    && (a.Val? ==> b.Mark? && b.c != ':')
  }

  ghost predicate WellFormed(ts: seq<Token>) {
    && (forall n :: 0 <= n < |ts| ==> WellSpelled(ts[n]))
    && forall n :: 0 < n < |ts| ==> Follows(ts[n-1], ts[n])
  }

  /** The characters of a match. */
  lemma Matched(t: string, i: nat, p: string)
    requires At(t, i, p)
    ensures forall n :: 0 <= n < |p| ==> t[i + n] == p[n]
  {
    forall n | 0 <= n < |p| ensures t[i + n] == p[n] { assert t[i..i + |p|][n] == p[n]; }
  }

  lemma FirstMatched(t: string, i: nat, p: string)
    requires At(t, i, p) && p != ""
    ensures t[i] == p[0]
  {
    Matched(t, i, p);
    assert t[i + 0] == p[0];
  }

  /** Where the quoted texts of a match end. */
  lemma QuotesMeet(raw: string, rest: string, i: nat, k: string, tail: string)
    requires Escaped(raw) && Simple(k) && i <= |raw| && (k == "" ==> i == 0)
    requires At("\"" + raw + "\"" + rest, i, "\"" + k + "\"" + tail)
    ensures i + |k| == |raw| && raw[i..] == k
  {
    var t, p := "\"" + raw + "\"" + rest, "\"" + k + "\"" + tail;
    Matched(t, i, p);
    assert forall n :: 0 <= n < |k| ==> p[1 + n] == k[n];
    assert forall n :: 0 <= n < |k| ==> t[i + (1 + n)] == k[n] && k[n] != '"' && k[n] != '\\';
    assert forall q :: 0 <= q < |raw| ==> t[1 + q] == raw[q];
    assert t[1 + |raw|] == '"' && t[i + (1 + |k|)] == p[1 + |k|] == '"';
    EndsMeet(raw, i, k, t);
    assert forall n :: 0 <= n < |k| ==> raw[i + n] == t[1 + (i + n)] == k[n];
  }

  /** A text that ends within the key part would put a quotation mark into the key. */
  lemma NotEarlier(raw: string, i: nat, k: string, t: string)
    requires i <= |raw| < i + |k| && i + 1 + |k| < |t|
    requires forall n :: 0 <= n < |k| ==> t[i + (1 + n)] == k[n] && k[n] != '"' && k[n] != '\\'
    ensures t[1 + |raw|] != '"'
  {
    assert t[i + (1 + (|raw| - i))] == k[|raw| - i];
  }

  /** A key part that ends within the text would end at an escaped quotation mark. */
  lemma NotLater(raw: string, i: nat, k: string, t: string)
    requires Escaped(raw) && i + |k| < |raw| && 1 + |raw| < |t| && (k == "" ==> i == 0)
    requires forall n :: 0 <= n < |k| ==> t[i + (1 + n)] == k[n] && k[n] != '"' && k[n] != '\\'
    requires forall q :: 0 <= q < |raw| ==> t[1 + q] == raw[q]
    ensures t[i + (1 + |k|)] != '"'
  {
    var q := i + |k|;
    assert t[1 + q] == raw[q];
    if k != "" { assert t[i + (1 + (|k| - 1))] == k[|k|-1] && t[1 + (q - 1)] == raw[q-1]; }
  }

  lemma EndsMeet(raw: string, i: nat, k: string, t: string)
    requires Escaped(raw) && i <= |raw| && (k == "" ==> i == 0) && 1 + |raw| < |t| && i + 1 + |k| < |t|
    requires forall n :: 0 <= n < |k| ==> t[i + (1 + n)] == k[n] && k[n] != '"' && k[n] != '\\'
    requires forall q :: 0 <= q < |raw| ==> t[1 + q] == raw[q]
    requires t[1 + |raw|] == '"' && t[i + (1 + |k|)] == '"'
    ensures i + |k| == |raw|
  {
    if |raw| < i + |k| { NotEarlier(raw, i, k, t); }
    if i + |k| < |raw| { NotLater(raw, i, k, t); }
  }

  /** Between quotation marks: the pattern's quoted part is the whole text. */
  lemma QuoteStart(raw: string, rest: string, k: string, tail: string)
    requires Escaped(raw) && Simple(k) && At("\"" + raw + "\"" + rest, 0, "\"" + k + "\"" + tail)
    ensures raw == k && At(rest, 0, tail)
  {
    QuotesMeet(raw, rest, 0, k, tail);
    assert raw[0..] == raw;
    RestMatched("\"" + raw + "\"", rest, tail);
  }

  lemma RestMatched(front: string, rest: string, tail: string)
    requires At(front + rest, 0, front + tail)
    ensures At(rest, 0, tail)
  {
    var t, p := front + rest, front + tail;
    assert t[0..|p|] == p;
    assert rest[0..0 + |tail|] == t[|front|..|p|] == p[|front|..] == tail;
  }

  /** Inside a text: it ends in the pattern's key part, and the rest matches the rest. */
  lemma QuoteInside(raw: string, rest: string, i: nat, k: string, tail: string)
    requires Escaped(raw) && Simple(k) && k != "" && 0 < i <= |raw|
    requires At("\"" + raw + "\"" + rest, i, "\"" + k + "\"" + tail)
    ensures Names(raw, k) && At(rest, 0, tail)
  {
    QuotesMeet(raw, rest, i, k, tail);
    var t, p := "\"" + raw + "\"" + rest, "\"" + k + "\"" + tail;
    FirstMatched(t, i, p);
    assert t[i] == raw[i-1] && raw[|raw|-|k|..] == raw[i..];
    assert t == ("\"" + raw[..i-1]) + ("\"" + k + "\"" + rest);
    Shifted("\"" + raw[..i-1], "\"" + k + "\"" + rest, 0, p);
    RestMatched("\"" + k + "\"", rest, tail);
  }

  /** From a closing quotation mark: the key's first character would have to follow it. */
  lemma QuoteEnd(raw: string, rest: string, k: string, tail: string)
    requires k != "" && At("\"" + raw + "\"" + rest, |raw| + 1, "\"" + k + "\"" + tail)
    ensures rest != "" && rest[0] == k[0]
  {
    var t, p, i := "\"" + raw + "\"" + rest, "\"" + k + "\"" + tail, |raw| + 1;
    assert t[i + 1] == p[1] by { assert t[i..i + |p|] == p; }
    assert p[1] == k[0] && t[i + 1] == rest[0];
  }

  function Tail(s: string): string {
    ":\"" + s + "\""
  }

  lemma PatternParts(k: string, s: string)
    ensures Pattern(k, s) == "\"" + k + "\"" + Tail(s)
  {
  }

  /** The first character after a token is that of the next one. */
  lemma NextCharacter(ts: seq<Token>)
    requires WellFormed(ts) && |ts| > 0 && (ts[0].Key? || ts[0].Val?)
    ensures |ts| == 1 ==> Spell(ts[1..]) == ""
    ensures |ts| > 1 ==> ts[1].Mark? && Spell(ts[1..]) != "" && Spell(ts[1..])[0] == ts[1].c && (ts[0].Val? ==> ts[1].c != ':')
  {
    if |ts| > 1 {
      assert Follows(ts[0], ts[1]) && ts[1..][0] == ts[1] && WellSpelled(ts[1]);
    }
  }

  /** No quotation mark, no match. */
  lemma NoQuoteNoMatch(text: string, rest: string, i: nat, p: string)
    requires NoQuote(text) && i < |text| && p != "" && p[0] == '"'
    ensures !At(text + rest, i, p)
  {
    assert text[i] == (text + rest)[i];
    if At(text + rest, i, p) { FirstMatched(text + rest, i, p); }
  }

  /** A text value is no place for a match to start. */
  lemma ValueNoMatch(ts: seq<Token>, i: nat, k: string, s: string)
    requires WellFormed(ts) && |ts| > 0 && ts[0].Val? && Searched(k) && i < |Spelling(ts[0])|
    ensures !At(Spell(ts), i, Pattern(k, s))
  {
    hide Spell;
    SpellHead(ts);
    PatternParts(k, s);
    NextCharacter(ts);
    assert WellSpelled(ts[0]);
    if |ts| > 1 { assert WellSpelled(ts[1]); }
    hide WellFormed, Escaped;
    if At(Spell(ts), i, Pattern(k, s)) {
      var raw, rest := ts[0].raw, Spell(ts[1..]);
      if i == 0 { QuoteStart(raw, rest, k, Tail(s)); StartsWith(rest, Tail(s)); }
      if 0 < i <= |raw| { QuoteInside(raw, rest, i, k, Tail(s)); StartsWith(rest, Tail(s)); }
      if i == |raw| + 1 { QuoteEnd(raw, rest, k, Tail(s)); }
    }
  }

  lemma SpellHead(ts: seq<Token>)
    requires ts != []
    ensures Spell(ts) == Spelling(ts[0]) + Spell(ts[1..])
  {
  }

  lemma StartsWith(t: string, p: string)
    requires At(t, 0, p) && p != ""
    ensures t != "" && t[0] == p[0]
  {
    FirstMatched(t, 0, p);
  }

  lemma KeyFacts(ts: seq<Token>)
    requires WellFormed(ts) && |ts| > 0 && ts[0].Key?
    ensures Escaped(ts[0].raw) && (|ts| > 1 ==> ts[1] == Mark(':'))
  {
    assert WellSpelled(ts[0]);
    if |ts| > 1 { assert Follows(ts[0], ts[1]); }
  }

  /** What follows a matching key. */
  lemma KeyRest(ts: seq<Token>, k: string, s: string)
    requires WellFormed(ts) && |ts| > 0 && ts[0].Key? && Names(ts[0].raw, k) && Simple(s) && At(Spell(ts[1..]), 0, Tail(s))
    ensures Triple(ts, k, s)
  {
    hide Spell, Names;
    NextCharacter(ts);
    KeyFacts(ts);
    StartsWith(Spell(ts[1..]), Tail(s));
    SpellHead(ts[1..]);
    hide WellFormed, Escaped;
    assert ts[1..][1..] == ts[2..] && ts[1..][0] == ts[1];
    AfterColon(Spell(ts[2..]), s);
    ValueMatch(ts, s);
  }

  /** From a key only a triple matches. */
  lemma KeyMatch(ts: seq<Token>, i: nat, k: string, s: string)
    requires WellFormed(ts) && |ts| > 0 && ts[0].Key? && Searched(k) && Simple(s) && i < |Spelling(ts[0])|
    requires At(Spell(ts), i, Pattern(k, s))
    ensures Triple(ts, k, s)
  {
    hide Spell, Triple, WellFormed, Escaped;
    SpellHead(ts);
    KeyFacts(ts);
    NextCharacter(ts);
    PatternParts(k, s);
    var raw, rest := ts[0].raw, Spell(ts[1..]);
    if i == |raw| + 1 {
      QuoteEnd(raw, rest, k, Tail(s));
    } else {
      if i == 0 { QuoteStart(raw, rest, k, Tail(s)); } else { QuoteInside(raw, rest, i, k, Tail(s)); }
      KeyRest(ts, k, s);
    }
  }

  lemma AfterColon(rest: string, s: string)
    requires At(":" + rest, 0, Tail(s))
    ensures At(rest, 0, "\"" + s + "\"")
  {
    var p := "\"" + s + "\"";
    assert (":" + rest)[0..|Tail(s)|] == Tail(s);
    assert Tail(s) == ":" + p;
    assert rest[0..0 + |p|] == (":" + rest)[1..1 + |p|] == Tail(s)[1..];
  }

  /** After the colon the matched text is the value's. */
  lemma ValueMatch(ts: seq<Token>, s: string)
    requires WellFormed(ts) && |ts| > 1 && ts[1] == Mark(':') && Simple(s)
    requires At(Spell(ts[2..]), 0, "\"" + s + "\"")
    ensures |ts| > 2 && ts[2] == Val(s)
  {
    hide Spell;
    StartsWith(Spell(ts[2..]), "\"" + s + "\"");
    if |ts| == 2 { SpellNothing(); }
    SpellHead(ts[2..]);
    var t := ts[2];
    assert ts[2..][0] == t && Follows(ts[1], t) && WellSpelled(t);
    if t.Val? {
      assert "\"" + s + "\"" + "" == "\"" + s + "\"";
      QuoteStart(t.raw, Spell(ts[2..][1..]), s, "");
    } else {
      NotQuoted(t);
    }
  }

  lemma NotQuoted(t: Token)
    requires WellSpelled(t) && (t.Mark? || t.Word?)
    ensures Spelling(t) != "" && Spelling(t)[0] != '"'
  {
  }

  lemma SpellNothing()
    ensures Spell([]) == ""
  {
  }

  /** A match within the first token is a triple. */
  lemma HeadMatch(ts: seq<Token>, i: nat, k: string, s: string)
    requires WellFormed(ts) && |ts| > 0 && Searched(k) && Simple(s) && i < |Spelling(ts[0])|
    requires At(Spell(ts), i, Pattern(k, s))
    ensures Triple(ts, k, s)
  {
    hide Spell, Triple;
    SpellHead(ts);
    assert WellSpelled(ts[0]);
    match ts[0]
    case Key(_) => KeyMatch(ts, i, k, s);
    case Val(_) => ValueNoMatch(ts, i, k, s);
    case Mark(c) => NoQuoteNoMatch([c], Spell(ts[1..]), i, Pattern(k, s));
    case Word(text) => NoQuoteNoMatch(text, Spell(ts[1..]), i, Pattern(k, s));
  }

  /** A triple is a match. */
  lemma TripleMatch(ts: seq<Token>, k: string, s: string)
    requires Triple(ts, k, s)
    ensures Contains(Spell(ts), Pattern(k, s))
  {
    SpellHead(ts);
    SpellHead(ts[1..]);
    SpellHead(ts[2..]);
    assert ts[1..][1..] == ts[2..] && ts[2..][1..] == ts[3..];
    hide Spell;
    var raw := ts[0].raw;
    var front := if raw == k then "" else "\"" + raw[..|raw|-|k|-1];
    TripleText(raw, k, s, Spell(ts[3..]));
    assert Spell(ts) == front + (Pattern(k, s) + Spell(ts[3..]));
    assert At(Pattern(k, s) + Spell(ts[3..]), 0, Pattern(k, s));
    Shifted(front, Pattern(k, s) + Spell(ts[3..]), 0, Pattern(k, s));
    assert At(Spell(ts), |front|, Pattern(k, s));
  }

  lemma TripleText(raw: string, k: string, s: string, rest: string)
    requires Names(raw, k)
    ensures "\"" + raw + "\"" + (":" + ("\"" + s + "\"" + rest)) ==
      (if raw == k then "" else "\"" + raw[..|raw|-|k|-1]) + (Pattern(k, s) + rest)
  {
    if raw != k {
      assert raw == raw[..|raw|-|k|-1] + "\"" + raw[|raw|-|k|..];
    }
  }

  lemma Shifted(a: string, b: string, i: nat, p: string)
    ensures At(b, i, p) <==> At(a + b, |a| + i, p)
  {
    if i + |p| <= |b| { assert (a + b)[|a| + i..|a| + i + |p|] == b[i..i + |p|]; }
  }

  /** On well-formed tokens the pattern occurs in the text exactly when the triple is found. */
  lemma {:induction false} ContainsIsFound(ts: seq<Token>, k: string, s: string)
    requires WellFormed(ts) && Searched(k) && Simple(s)
    ensures Contains(Spell(ts), Pattern(k, s)) <==> Found(ts, k, s)
  {
    var p := Pattern(k, s);
    if ts == [] {
      forall i: nat ensures !At(Spell(ts), i, p) { }
    } else {
      WellFormedTail(ts);
      ContainsIsFound(ts[1..], k, s);
      SpellHead(ts);
      var head, rest := Spelling(ts[0]), Spell(ts[1..]);
      hide Spell, WellFormed, Triple;
      if i: nat :| At(Spell(ts), i, p) {
        if i < |head| {
          HeadMatch(ts, i, k, s);
        } else {
          Shifted(head, rest, i - |head|, p);
          assert At(rest, i - |head|, p);
        }
      }
      if Triple(ts, k, s) { TripleMatch(ts, k, s); }
      if i: nat :| At(rest, i, p) { Shifted(head, rest, i, p); }
    }
  }

  lemma WellFormedTail(ts: seq<Token>)
    requires WellFormed(ts) && ts != []
    ensures WellFormed(ts[1..])
  {
    var u := ts[1..];
    assert forall n :: 0 <= n < |u| ==> u[n] == ts[n+1];
    forall n | 0 < n < |u| ensures Follows(u[n-1], u[n]) { assert Follows(ts[n], ts[n+1]); }
  }

  // ---------------------------------------------------------------- documents

  lemma HexNoQuote(n: nat)
    requires n < 0x10000
    ensures NoQuote(EscapeUnit(n)) && EscapeUnit(n)[0] == '\\'
  {
  }

  /** One character: its quotation marks are escaped, and it has none unless it is one; then it has
      one, at its end. */
  lemma CharEscaped(c: char)
    ensures Escaped(Escape(c, false)) && Escape(c, false) != "" && (c != '"' ==> NoQuote(Escape(c, false)))
    ensures Escape(c, false)[0] != '"' && (c == '"' ==> |Escape(c, false)| == 2)
  {
    if c as int < 0x20 { HexNoQuote(c as int); }
    hide EscapeUnit;
  }

  lemma EscapedAppend(a: string, b: string)
    requires Escaped(a) && Escaped(b)
    ensures Escaped(a + b)
  {
    forall q | 0 <= q < |a + b| && (a + b)[q] == '"' ensures q > 0 && (a + b)[q-1] == '\\' {
      if q >= |a| { assert b[q - |a|] == '"'; assert (a + b)[q-1] == b[q - |a| - 1]; }
    }
  }

  lemma {:induction false} AllEscaped(s: string)
    ensures Escaped(EscapeAll(s, false))
  {
    hide Escape, Escaped;
    if s == "" {
      EmptyEscaped();
    } else {
      CharEscaped(s[0]);
      AllEscaped(s[1..]);
      EscapedAppend(Escape(s[0], false), EscapeAll(s[1..], false));
    }
  }

  lemma EmptyEscaped()
    ensures Escaped("")
  {
  }

  lemma {:induction false} DigitsNoQuote(n: nat)
    ensures NoQuote(PrintNat(n)) && PrintNat(n) != ""
  {
    if n >= 10 { DigitsNoQuote(n / 10); }
  }

  lemma ScalarWord(j: Json)
    requires j.Null? || j.Bool? || j.Int?
    ensures Dumps(j, false) != "" && NoQuote(Dumps(j, false))
  {
    if j.Int? { DigitsNoQuote(if j.i < 0 then -j.i else j.i); }
  }

  /** Well-formed tokens in a row, where the first may follow the last. */
  lemma WellFormedAppend(a: seq<Token>, b: seq<Token>)
    requires WellFormed(a) && WellFormed(b) && (a != [] && b != [] ==> Follows(a[|a|-1], b[0]))
    ensures WellFormed(a + b)
  {
    hide WellSpelled, Follows;
    var c := a + b;
    forall n | 0 < n < |c| ensures Follows(c[n-1], c[n]) {
      if n < |a| {
        assert c[n-1] == a[n-1] && c[n] == a[n];
      } else if n > |a| {
        assert c[n-1] == b[n-|a|-1] && c[n] == b[n-|a|];
      }
    }
  }

  lemma WellFormedOne(t: Token)
    requires WellSpelled(t)
    ensures WellFormed([t])
  {
  }

  /** A value: well formed, starting with no key, ending with a closing token. */
  ghost predicate Value(ts: seq<Token>) {
    WellFormed(ts) && ts != [] && !ts[0].Key? && ts[0] != Mark(':') && Closes(ts[|ts|-1]) && !(ts[0].Mark? && ts[0].c == ',')
  }

  lemma ValueWrapped(open: char, ts: seq<Token>, close: char)
    requires (open == '[' && close == ']') || (open == '{' && close == '}')
    requires WellFormed(ts) && (ts != [] ==> Closes(ts[|ts|-1]))
    ensures Value([Mark(open)] + ts + [Mark(close)])
  {
    WellFormedOne(Mark(open));
    WellFormedOne(Mark(close));
    WellFormedAppend([Mark(open)], ts);
    WellFormedAppend([Mark(open)] + ts, [Mark(close)]);
    hide WellFormed;
  }

  lemma ListWellFormed(a: seq<Token>, b: seq<Token>)
    requires WellFormed(a) && a != [] && Closes(a[|a|-1]) && WellFormed(b)
    ensures WellFormed(a + [Mark(',')] + b)
  {
    WellFormedOne(Mark(','));
    WellFormedAppend(a, [Mark(',')]);
    WellFormedAppend(a + [Mark(',')], b);
    hide WellFormed;
  }

  lemma MemberWellFormed(raw: string, ts: seq<Token>)
    requires Escaped(raw) && Value(ts)
    ensures WellFormed([Key(raw), Mark(':')] + ts)
  {
    WellFormedOne(Key(raw));
    WellFormedOne(Mark(':'));
    WellFormedAppend([Key(raw)], [Mark(':')]);
    assert [Key(raw)] + [Mark(':')] == [Key(raw), Mark(':')];
    WellFormedAppend([Key(raw), Mark(':')], ts);
    hide WellFormed;
  }

  /** The tokens of every document are well formed. */
  lemma {:induction false} TokensWellFormed(j: Json)
    ensures Value(Tokens(j))
    decreases j, 1
  {
    match j
    case Str(s) => AllEscaped(s); WellFormedOne(Val(EscapeAll(s, false)));
    case Arr(xs) => ItemsWellFormed(xs); ItemsClose(xs); ValueWrapped('[', ItemTokens(xs), ']');
    case Obj(m) =>
      var ks := SortedKeys(m.Keys);
      MembersWellFormed(j, ks);
      MembersClose(j, ks);
      ValueWrapped('{', MemberTokens(j, ks), '}');
    case _ => ScalarWord(j); WellFormedOne(Word(Dumps(j, false)));
  }

  lemma {:induction false} ItemsWellFormed(xs: seq<Json>)
    ensures WellFormed(ItemTokens(xs))
    decreases xs, 0
  {
    if xs != [] {
      TokensWellFormed(xs[0]);
      ItemsWellFormed(xs[1..]);
      hide Tokens, WellFormed;
      if |xs| > 1 { ListWellFormed(Tokens(xs[0]), ItemTokens(xs[1..])); }
    }
  }

  lemma {:induction false} MembersWellFormed(j: Json, ks: seq<string>)
    requires j.Obj? && forall k :: k in ks ==> k in j.fields
    ensures WellFormed(MemberTokens(j, ks))
    decreases j, 0, |ks|
  {
    if ks != [] {
      assert ks[0] in ks;
      var v := j.fields[ks[0]];
      TokensWellFormed(v);
      MembersWellFormed(j, ks[1..]);
      AllEscaped(ks[0]);
      MemberWellFormed(EscapeAll(ks[0], false), Tokens(v));
      TokensClose(v);
      hide Tokens, WellFormed, EscapeAll;
      var member := [Key(EscapeAll(ks[0], false)), Mark(':')] + Tokens(v);
      assert member[|member|-1] == Tokens(v)[|Tokens(v)|-1];
      if |ks| > 1 { ListWellFormed(member, MemberTokens(j, ks[1..])); }
    }
  }

  /** In canonical text `"k":"s"` occurs exactly when the document holds `s` under the key `k`, or under a
      key that ends in a quotation mark and `k`. */
  lemma SearchFinds(j: Json, k: string, s: string)
    requires Searched(k) && Simple(s)
    ensures Contains(Dumps(j, false), Pattern(k, s)) <==> Shows(j, k, s)
  {
    hide *;
    SearchedSimple(k);
    TokensSpell(j);
    TokensWellFormed(j);
    FoundIsShown(j, k, s);
    WellFormedValue(Tokens(j));
    ContainsIsFound(Tokens(j), k, s);
  }

  lemma WellFormedValue(ts: seq<Token>)
    requires Value(ts)
    ensures WellFormed(ts)
  {
  }

  lemma SearchedSimple(k: string)
    requires Searched(k)
    ensures Simple(k)
  {
  }
}
