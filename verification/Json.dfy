/** JSON documents as the ledger stores them, and the Python values they are canonicalized from. */
module Json {
  import opened Strings
  import opened Like

  datatype Option<+T> = None | Some(value: T)

  datatype Json =
    | Null
    | Bool(b: bool)
    | Int(i: int)
    | Str(s: string)
    | Arr(items: seq<Json>)
    | Obj(fields: map<string, Json>)

  /** `payload.get(k)` when it is a `str`, else None. */
  function Text(m: map<string, Json>, k: string): Option<string> {
    if k in m && m[k].Str? then Some(m[k].s) else None
  }

  /** `payload.get(k)` when it is a non-empty `str`, else None. */
  function Name(m: map<string, Json>, k: string): Option<string> {
    if k in m && m[k].Str? && m[k].s != "" then Some(m[k].s) else None
  }

  /** `payload.get(k)` when it is a `dict`, else an empty one. */
  function Sub(m: map<string, Json>, k: string): map<string, Json> {
    if k in m && m[k].Obj? then m[k].fields else map[]
  }

  function OrNull(o: Option<string>): Json {
    match o case None => Null case Some(s) => Str(s)
  }

  /** At any depth of the document, key `k` holds the string `s`. */
  predicate Mentions(j: Json, k: string, s: string) {
    match j
    case Obj(m) => (k in m && m[k] == Str(s)) || exists x :: x in m && Mentions(m[x], k, s)
    case Arr(xs) => exists i :: 0 <= i < |xs| && Mentions(xs[i], k, s)
    case _ => false
  }

  /** At any depth of the document, a key taken for `k` holds a string taken for `s`. */
  predicate Answers(j: Json, k: string, s: string) {
    match j
    case Obj(m) => exists x :: x in m && ((Reaches(x, k) && m[x].Str? && Fits(m[x].s, s)) || Answers(m[x], k, s))
    case Arr(xs) => exists i :: 0 <= i < |xs| && Answers(xs[i], k, s)
    case _ => false
  }

  /** At any depth of the document, some key is taken for `k`. */
  predicate HasKey(j: Json, k: string) {
    match j
    case Obj(m) => exists x :: x in m && (Reaches(x, k) || HasKey(m[x], k))
    case Arr(xs) => exists i :: 0 <= i < |xs| && HasKey(xs[i], k)
    case _ => false
  }

  /** Caller data without any key that a lookup takes for one of its own. */
  predicate NoIdKeys(j: Json) {
    !HasKey(j, "intent_id") && !HasKey(j, "run_id") && !HasKey(j, "session_id")
  }

  /** At every depth of the document, only the three keys themselves are taken for them. */
  ghost predicate StraightKeys(j: Json) {
    match j
    case Obj(m) => forall x :: x in m ==> Straight(x) && StraightKeys(m[x])
    case Arr(xs) => forall i :: 0 <= i < |xs| ==> StraightKeys(xs[i])
    case _ => true
  }

  lemma {:induction false} NoKeyNoMention(j: Json, k: string, s: string)
    requires !HasKey(j, k) && IsIdKey(k)
    ensures !Mentions(j, k, s)
  {
    hide Reaches;
    SelfReached(k);
    match j
    case Obj(m) => forall x | x in m ensures !Mentions(m[x], k, s) { NoKeyNoMention(m[x], k, s); }
    case Arr(xs) => forall i | 0 <= i < |xs| ensures !Mentions(xs[i], k, s) { NoKeyNoMention(xs[i], k, s); }
    case _ =>
  }

  lemma {:induction false} NoKeyStraight(j: Json)
    requires NoIdKeys(j)
    ensures StraightKeys(j)
  {
    hide Reaches;
    match j
    case Obj(m) => forall x | x in m ensures Straight(x) && StraightKeys(m[x]) { NoKeyStraight(m[x]); }
    case Arr(xs) => forall i | 0 <= i < |xs| ensures StraightKeys(xs[i]) { NoKeyStraight(xs[i]); }
    case _ =>
  }

  /** With straight keys a document answers for the ids it mentions and those taken for them. */
  lemma {:induction false} StraightAnswers(j: Json, k: string, s: string)
    requires StraightKeys(j) && IsIdKey(k)
    ensures Answers(j, k, s) <==> exists v :: Mentions(j, k, v) && Fits(v, s)
  {
    hide Reaches, Fits;
    match j
    case Obj(m) =>
      SelfReached(k);
      forall x | x in m ensures Answers(m[x], k, s) <==> exists v :: Mentions(m[x], k, v) && Fits(v, s) {
        StraightAnswers(m[x], k, s);
      }
      if Answers(j, k, s) {
        var x :| x in m && ((Reaches(x, k) && m[x].Str? && Fits(m[x].s, s)) || Answers(m[x], k, s));
        if Answers(m[x], k, s) {
          var v :| Mentions(m[x], k, v) && Fits(v, s);
          assert Mentions(j, k, v);
        } else {
          assert Straight(x) && Mentions(j, k, m[x].s);
        }
      }
      if v :| Mentions(j, k, v) && Fits(v, s) {
        if !(k in m && m[k] == Str(v)) {
          var x :| x in m && Mentions(m[x], k, v);
          assert Answers(m[x], k, s);
        }
      }
    case Arr(xs) =>
      forall i | 0 <= i < |xs| ensures Answers(xs[i], k, s) <==> exists v :: Mentions(xs[i], k, v) && Fits(v, s) {
        StraightAnswers(xs[i], k, s);
      }
      if Answers(j, k, s) {
        var i :| 0 <= i < |xs| && Answers(xs[i], k, s);
        var v :| Mentions(xs[i], k, v) && Fits(v, s);
        assert Mentions(j, k, v);
      }
      if v :| Mentions(j, k, v) && Fits(v, s) {
        var i :| 0 <= i < |xs| && Mentions(xs[i], k, v);
        assert Answers(xs[i], k, s);
      }
    case _ =>
  }

  // ---------------------------------------------------------------- canonicalization

  /** The Python values a caller may hand to the ledger. `Other` is any type the
      canonicalizer does not know; tuples are read as lists. */
  datatype Py =
    | PNone
    | PBool(b: bool)
    | PInt(i: int)
    | PFloat(repr: string)
    | PStr(s: string)
    | PList(items: seq<Py>)
    | PDict(entries: seq<Entry>)
    | POther(typeName: string)

  datatype Entry = Entry(key: Py, value: Py)

  type Normalizer = string -> string

  /** Normalization to NFC, as far as the code relies on it: it is idempotent. */
  ghost predicate Idempotent(nfc: Normalizer) {
    forall s :: nfc(nfc(s)) == nfc(s)
  }

  /** None stands for PayloadValidationError. */
  function Normalize(nfc: Normalizer, v: Py): Option<Json> {
    match v
    case PNone => Some(Null)
    case PBool(b) => Some(Bool(b))
    case PInt(i) => Some(Int(i))
    case PFloat(_) => None
    case PStr(s) => Some(Str(nfc(s)))
    case PList(xs) => (match NormalizeItems(nfc, xs) case None => None case Some(ys) => Some(Arr(ys)))
    case PDict(es) => (match NormalizeEntries(nfc, es) case None => None case Some(m) => Some(Obj(m)))
    case POther(_) => None
  }

  function NormalizeItems(nfc: Normalizer, xs: seq<Py>): Option<seq<Json>>
    decreases xs
  {
    if xs == [] then Some([])
    else
      match (NormalizeItems(nfc, xs[..|xs|-1]), Normalize(nfc, xs[|xs|-1]))
      case (Some(ys), Some(y)) => Some(ys + [y])
      case _ => None
  }

  /** Entries are taken in insertion order, so of two keys with one normal form the later wins. */
  function NormalizeEntries(nfc: Normalizer, es: seq<Entry>): Option<map<string, Json>>
    decreases es
  {
    if es == [] then Some(map[])
    else
      match (NormalizeEntries(nfc, es[..|es|-1]), NormalizeEntry(nfc, es[|es|-1]))
      case (Some(m), Some((k, j))) => Some(m[k := j])
      case _ => None
  }

  function NormalizeEntry(nfc: Normalizer, e: Entry): Option<(string, Json)> {
    match (e.key, Normalize(nfc, e.value))
    case (PStr(k), Some(j)) => Some((nfc(k), j))
    case _ => None
  }

  /** `canonicalize_payload` before printing: only a dict is a payload. */
  function Canonical(nfc: Normalizer, v: Py): Option<Json> {
    if v.PDict? then Normalize(nfc, v) else None
  }

  /** No float, no unknown type and no key that is not a string, at any depth. */
  predicate Serial(v: Py) {
    match v
    case PFloat(_) => false
    case POther(_) => false
    case PList(xs) => forall i :: 0 <= i < |xs| ==> Serial(xs[i])
    case PDict(es) => forall i :: 0 <= i < |es| ==> es[i].key.PStr? && Serial(es[i].value)
    case _ => true
  }

  /** The canonicalizer accepts exactly those values. */
  lemma {:induction false} NormalizeAccepts(nfc: Normalizer, v: Py)
    ensures Normalize(nfc, v).Some? <==> Serial(v)
    decreases v, 1
  {
    match v
    case PList(xs) => ItemsAccepted(nfc, xs);
    case PDict(es) => EntriesAccepted(nfc, es);
    case _ =>
  }

  lemma {:induction false} ItemsAccepted(nfc: Normalizer, xs: seq<Py>)
    ensures NormalizeItems(nfc, xs).Some? <==> forall i :: 0 <= i < |xs| ==> Serial(xs[i])
    decreases xs, 0
  {
    if xs != [] {
      ItemsAccepted(nfc, xs[..|xs|-1]);
      NormalizeAccepts(nfc, xs[|xs|-1]);
    }
  }

  lemma {:induction false} EntriesAccepted(nfc: Normalizer, es: seq<Entry>)
    ensures NormalizeEntries(nfc, es).Some? <==> forall i :: 0 <= i < |es| ==> es[i].key.PStr? && Serial(es[i].value)
    decreases es, 0
  {
    if es != [] {
      EntriesAccepted(nfc, es[..|es|-1]);
      EntryAccepted(nfc, es[|es|-1]);
    }
  }

  /** A payload is accepted if and only if it is a dict of such values. */
  lemma CanonicalAccepts(nfc: Normalizer, v: Py)
    ensures Canonical(nfc, v).Some? <==> v.PDict? && Serial(v)
    ensures Canonical(nfc, v).Some? ==> Canonical(nfc, v) == Normalize(nfc, v) && Canonical(nfc, v).value.Obj?
  {
    NormalizeAccepts(nfc, v);
  }

  /** Entry `n` is the last whose key has the normal form `k`. */
  ghost predicate LastEntry(nfc: Normalizer, es: seq<Entry>, k: string, n: nat) {
    && n < |es| && es[n].key.PStr? && nfc(es[n].key.s) == k
    && forall j :: n < j < |es| && es[j].key.PStr? ==> nfc(es[j].key.s) != k
  }

  /** Of several keys with one normal form the last decides, and no key is lost. */
  lemma {:induction false} LastKeyWins(nfc: Normalizer, es: seq<Entry>, k: string)
    requires NormalizeEntries(nfc, es).Some?
    ensures k in NormalizeEntries(nfc, es).value <==> exists n: nat :: LastEntry(nfc, es, k, n)
    ensures forall n: nat :: LastEntry(nfc, es, k, n) ==>
      k in NormalizeEntries(nfc, es).value && Normalize(nfc, es[n].value) == Some(NormalizeEntries(nfc, es).value[k])
  {
    hide Normalize;
    if es != [] {
      var front, m := es[..|es|-1], |es| - 1;
      LastKeyWins(nfc, front, k);
      if es[m].key.PStr? && nfc(es[m].key.s) == k {
        assert LastEntry(nfc, es, k, m);
        assert forall n: nat :: LastEntry(nfc, es, k, n) ==> n == m;
      } else {
        forall n: nat ensures LastEntry(nfc, es, k, n) <==> LastEntry(nfc, front, k, n) {
          if n < m { assert front[n] == es[n]; }
        }
      }
    }
  }

  lemma {:induction false} EntryAccepted(nfc: Normalizer, e: Entry)
    ensures NormalizeEntry(nfc, e).Some? <==> e.key.PStr? && Serial(e.value)
    decreases e, 0
  {
    NormalizeAccepts(nfc, e.value);
  }

  /** The document read back as a Python value, keys in sorted order. */
  function Embed(j: Json): Py {
    match j
    case Null => PNone
    case Bool(b) => PBool(b)
    case Int(i) => PInt(i)
    case Str(s) => PStr(s)
    case Arr(xs) => PList(seq(|xs|, i requires 0 <= i < |xs| => Embed(xs[i])))
    case Obj(m) =>
      var ks := SortedKeys(m.Keys);
      PDict(seq(|ks|, i requires 0 <= i < |ks| => Entry(PStr(ks[i]), Embed(m[ks[i]]))))
  }

  /** Every string and key of the document is its own normal form. */
  predicate Normal(nfc: Normalizer, j: Json) {
    match j
    case Str(s) => nfc(s) == s
    case Arr(xs) => forall i :: 0 <= i < |xs| ==> Normal(nfc, xs[i])
    case Obj(m) => forall k :: k in m ==> nfc(k) == k && Normal(nfc, m[k])
    case _ => true
  }

  lemma {:induction false} NormalizeIsNormal(nfc: Normalizer, v: Py)
    requires Idempotent(nfc) && Normalize(nfc, v).Some?
    ensures Normal(nfc, Normalize(nfc, v).value)
    decreases v, 1
  {
    match v
    case PList(xs) => ItemsAreNormal(nfc, xs);
    case PDict(es) => EntriesAreNormal(nfc, es);
    case _ =>
  }

  lemma {:induction false} ItemsAreNormal(nfc: Normalizer, xs: seq<Py>)
    requires Idempotent(nfc) && NormalizeItems(nfc, xs).Some?
    ensures forall i :: 0 <= i < |NormalizeItems(nfc, xs).value| ==> Normal(nfc, NormalizeItems(nfc, xs).value[i])
    decreases xs, 0
  {
    if xs != [] {
      ItemsAreNormal(nfc, xs[..|xs|-1]);
      NormalizeIsNormal(nfc, xs[|xs|-1]);
    }
  }

  lemma {:induction false} EntriesAreNormal(nfc: Normalizer, es: seq<Entry>)
    requires Idempotent(nfc) && NormalizeEntries(nfc, es).Some?
    ensures forall k :: k in NormalizeEntries(nfc, es).value ==>
              nfc(k) == k && Normal(nfc, NormalizeEntries(nfc, es).value[k])
    decreases es, 0
  {
    if es != [] {
      EntriesAreNormal(nfc, es[..|es|-1]);
      EntryIsNormal(nfc, es[|es|-1]);
    }
  }

  lemma {:induction false} EntryIsNormal(nfc: Normalizer, e: Entry)
    requires Idempotent(nfc) && NormalizeEntry(nfc, e).Some?
    ensures nfc(NormalizeEntry(nfc, e).value.0) == NormalizeEntry(nfc, e).value.0
    ensures Normal(nfc, NormalizeEntry(nfc, e).value.1)
    decreases e, 0
  {
    NormalizeIsNormal(nfc, e.value);
  }

  /** A document that is already normal is stored unchanged. */
  lemma {:induction false} NormalIsFixed(nfc: Normalizer, j: Json)
    requires Normal(nfc, j)
    ensures Normalize(nfc, Embed(j)) == Some(j)
    decreases j, 1
  {
    match j
    case Arr(xs) =>
      var ps := seq(|xs|, i requires 0 <= i < |xs| => Embed(xs[i]));
      ItemsFixed(nfc, xs, ps, |xs|);
      assert ps[..|xs|] == ps && xs[..|xs|] == xs;
    case Obj(m) =>
      forall k | k in m ensures Normalize(nfc, Embed(m[k])) == Some(m[k]) { NormalIsFixed(nfc, m[k]); }
      var ks := SortedKeys(m.Keys);
      AllFieldsFixed(nfc, m, ks, Embed(j).entries);
    case _ =>
  }

  lemma AllFieldsFixed(nfc: Normalizer, m: map<string, Json>, ks: seq<string>, es: seq<Entry>)
    requires |ks| == |es| && (forall k :: k in ks <==> k in m)
    requires forall i :: 0 <= i < |ks| ==> es[i] == Entry(PStr(ks[i]), Embed(m[ks[i]]))
    requires forall k :: k in m ==> nfc(k) == k && Normalize(nfc, Embed(m[k])) == Some(m[k])
    ensures NormalizeEntries(nfc, es) == Some(m)
  {
    FieldsFixed(nfc, m, ks, es, |ks|);
    assert es[..|ks|] == es && ks[..|ks|] == ks;
    assert Picked(m, ks) == m;
  }

  ghost function Picked(m: map<string, Json>, ks: seq<string>): map<string, Json>
    requires forall k | k in ks :: k in m
  {
    map k | k in ks :: m[k]
  }

  lemma {:induction false} ItemsFixed(nfc: Normalizer, xs: seq<Json>, ps: seq<Py>, n: nat)
    requires n <= |xs| == |ps| && (forall i :: 0 <= i < |xs| ==> ps[i] == Embed(xs[i]) && Normal(nfc, xs[i]))
    ensures NormalizeItems(nfc, ps[..n]) == Some(xs[..n])
    decreases xs, 0, n
  {
    if n > 0 {
      ItemsFixed(nfc, xs, ps, n - 1);
      NormalIsFixed(nfc, xs[n-1]);
      assert ps[..n][..n-1] == ps[..n-1] && xs[..n] == xs[..n-1] + [xs[n-1]];
    }
  }

  lemma {:induction false} FieldsFixed(
    nfc: Normalizer, m: map<string, Json>, ks: seq<string>, es: seq<Entry>, n: nat)
    requires n <= |ks| == |es| && (forall k | k in ks :: k in m)
    requires forall i :: 0 <= i < |ks| ==> es[i] == Entry(PStr(ks[i]), Embed(m[ks[i]]))
    requires forall k :: k in m ==> nfc(k) == k && Normalize(nfc, Embed(m[k])) == Some(m[k])
    ensures NormalizeEntries(nfc, es[..n]) == Some(Picked(m, ks[..n]))
    decreases n
  {
    if n == 0 {
      assert es[..n] == [] && Picked(m, ks[..n]) == map[];
    } else {
      FieldsFixed(nfc, m, ks, es, n - 1);
      assert es[..n][..n-1] == es[..n-1] && ks[..n] == ks[..n-1] + [ks[n-1]];
      assert Picked(m, ks[..n]) == Picked(m, ks[..n-1])[ks[n-1] := m[ks[n-1]]];
    }
  }

  /** Canonicalizing what was canonicalized changes nothing. */
  lemma NormalizeIdempotent(nfc: Normalizer, v: Py)
    requires Idempotent(nfc) && Normalize(nfc, v).Some?
    ensures Normalize(nfc, Embed(Normalize(nfc, v).value)) == Normalize(nfc, v)
  {
    NormalizeIsNormal(nfc, v);
    NormalIsFixed(nfc, Normalize(nfc, v).value);
  }
}
