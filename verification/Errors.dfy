/** Audit error lists: deterministic codes, collected over keys in sorted order. */
module Errors {
  import opened Strings

  /** `CODE:identifier`. */
  datatype AuditError = AuditError(code: string, id: string)

  type ErrorList = seq<AuditError>

  /** The errors `of` reports for each key, in the order of the keys. */
  function Collect(keys: seq<string>, of: string -> ErrorList): ErrorList {
    if keys == [] then [] else Collect(keys[..|keys|-1], of) + of(keys[|keys|-1])
  }

  lemma {:induction false} CollectEmpty(keys: seq<string>, of: string -> ErrorList)
    ensures Collect(keys, of) == [] <==> forall k :: k in keys ==> of(k) == []
  {
    if keys != [] {
      var front := keys[..|keys|-1];
      CollectEmpty(front, of);
      assert forall k :: k in keys <==> k in front || k == keys[|keys|-1];
    }
  }

  /** An error is reported if and only if some key reports it. */
  lemma {:induction false} CollectFinds(keys: seq<string>, of: string -> ErrorList, x: AuditError)
    ensures x in Collect(keys, of) <==> exists k :: k in keys && x in of(k)
  {
    if keys != [] {
      var front, last := keys[..|keys|-1], keys[|keys|-1];
      CollectFinds(front, of, x);
      assert forall k :: k in keys <==> k in front || k == last;
    }
  }

  lemma CollectUpto(keys: seq<string>, of: string -> ErrorList, i: nat)
    requires i < |keys|
    ensures Collect(keys[..i+1], of) == Collect(keys[..i], of) + of(keys[i])
  {
    assert keys[..i+1][..i] == keys[..i];
  }

  /** The loop every projection check ends with. */
  method Report(keys: seq<string>, of: string -> ErrorList) returns (errors: ErrorList)
    ensures errors == Collect(keys, of)
  {
    errors := [];
    for i := 0 to |keys|
      invariant errors == Collect(keys[..i], of)
    {
      CollectUpto(keys, of, i);
      errors := errors + of(keys[i]);
    }
    assert keys[..|keys|] == keys;
  }

  /** One error when the condition holds. */
  function When(bad: bool, code: string, id: string): ErrorList {
    if bad then [AuditError(code, id)] else []
  }

  lemma WhenFinds(bad: bool, code: string, id: string, x: AuditError)
    ensures x in When(bad, code, id) <==> bad && x.code == code && x.id == id
  {
  }

  /** One error for every key that should not be there. */
  function Unexpected(code: string): string -> ErrorList {
    (i: string) => [AuditError(code, i)]
  }

  lemma UnexpectedFinds(ks: set<string>, code: string, x: AuditError)
    ensures x in Collect(SortedKeys(ks), Unexpected(code)) <==> x.id in ks && x.code == code
  {
    CollectFinds(SortedKeys(ks), Unexpected(code), x);
    forall k ensures x in Unexpected(code)(k) <==> x.id == k && x.code == code { }
    hide Unexpected, Collect;
  }

  /** When every key reports under itself, the errors of all are those each reports. */
  lemma ReportFinds(keys: seq<string>, of: string -> ErrorList, x: AuditError)
    requires forall k :: k in keys && x in of(k) ==> x.id == k
    ensures x in Collect(keys, of) <==> x.id in keys && x in of(x.id)
  {
    CollectFinds(keys, of, x);
    hide Collect;
  }

  lemma UnexpectedEmpty(ks: set<string>, code: string)
    ensures Collect(SortedKeys(ks), Unexpected(code)) == [] <==> ks == {}
  {
    CollectEmpty(SortedKeys(ks), Unexpected(code));
    if ks != {} {
      var k :| k in ks;
      assert Unexpected(code)(k) != [];
    }
  }
}
