/** Python's code-point ordering of strings, and sorting a finite set of strings by it.
    `sort_keys=True` and every `<` between timestamps use this order. */
module Strings {

  predicate Less(a: string, b: string) {
    if b == "" then false
    else if a == "" then true
    else a[0] < b[0] || (a[0] == b[0] && Less(a[1..], b[1..]))
  }

  predicate AtMost(a: string, b: string) {
    a == b || Less(a, b)
  }

  lemma Irreflexive(a: string)
    ensures !Less(a, a)
  {
  }

  lemma {:induction false} Trichotomy(a: string, b: string)
    ensures a == b || Less(a, b) || Less(b, a)
  {
    if a != "" && b != "" && a[0] == b[0] {
      Trichotomy(a[1..], b[1..]);
      assert a == [a[0]] + a[1..] && b == [b[0]] + b[1..];
    }
  }

  lemma {:induction false} Transitive(a: string, b: string, c: string)
    requires Less(a, b) && Less(b, c)
    ensures Less(a, c)
  {
    if a != "" && b != "" && c != "" && a[0] == b[0] == c[0] {
      Transitive(a[1..], b[1..], c[1..]);
    }
  }

  lemma Asymmetric(a: string, b: string)
    requires Less(a, b)
    ensures !Less(b, a)
  {
    if Less(b, a) {
      Transitive(a, b, a);
      Irreflexive(a);
    }
  }

  ghost predicate IsMin(m: string, ks: set<string>) {
    m in ks && forall k | k in ks :: AtMost(m, k)
  }

  lemma {:induction false} MinExists(ks: set<string>)
    requires ks != {}
    ensures exists m :: IsMin(m, ks)
  {
    var k :| k in ks;
    if ks == {k} {
      assert IsMin(k, ks);
    } else {
      MinExists(ks - {k});
      var m :| IsMin(m, ks - {k});
      Trichotomy(m, k);
      if Less(m, k) {
        assert IsMin(m, ks);
      } else {
        forall j | j in ks ensures AtMost(k, j) {
          Trichotomy(k, m);
          if j != k && j != m { assert j in ks - {k}; Transitive(k, m, j); }
        }
        assert IsMin(k, ks);
      }
    }
  }

  lemma MinUnique(m: string, n: string, ks: set<string>)
    requires IsMin(m, ks) && IsMin(n, ks)
    ensures m == n
  {
    if m != n { Asymmetric(m, n); }
  }

  function Min(ks: set<string>): (m: string)
    requires ks != {}
    ensures IsMin(m, ks)
  {
    MinExists(ks);
    assert forall m, n | m in ks && (forall k | k in ks :: AtMost(m, k))
                      && n in ks && (forall k | k in ks :: AtMost(n, k)) :: m == n by {
      forall m, n | m in ks && (forall k | k in ks :: AtMost(m, k))
                 && n in ks && (forall k | k in ks :: AtMost(n, k)) ensures m == n { MinUnique(m, n, ks); }
    }
    var m :| m in ks && forall k | k in ks :: AtMost(m, k);
    m
  }

  ghost predicate Sorted(xs: seq<string>) {
    forall i, j :: 0 <= i < j < |xs| ==> Less(xs[i], xs[j])
  }

  lemma SortedDistinct(xs: seq<string>, k: nat)
    requires Sorted(xs) && k < |xs|
    ensures xs[k] !in xs[..k]
  {
    if xs[k] in xs[..k] {
      var j :| 0 <= j < k && xs[j] == xs[k];
      Irreflexive(xs[k]);
    }
  }

  lemma MinFirst(m: string, ks: set<string>, rest: seq<string>)
    requires IsMin(m, ks) && Sorted(rest) && forall x :: x in rest <==> x in ks - {m}
    ensures Sorted([m] + rest)
  {
    forall i | 0 <= i < |rest| ensures Less(m, rest[i]) {
      assert rest[i] in rest;
      assert AtMost(m, rest[i]);
    }
  }

  /** Python's `sorted(ks)` for a set of strings. */
  function SortedKeys(ks: set<string>): (xs: seq<string>)
    ensures forall x :: x in xs <==> x in ks
    ensures Sorted(xs)
    decreases |ks|
  {
    if ks == {} then []
    else
      var m := Min(ks);
      var rest := SortedKeys(ks - {m});
      MinFirst(m, ks, rest);
      [m] + rest
  }
}
