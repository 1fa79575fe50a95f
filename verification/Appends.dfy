/** Sequences of appends: which attempts are usable, and what one of them does to a ledger. */
module Appends {
  import opened Strings
  import opened Ledger
  import opened State

  /** If the append succeeds, its id is new and its time is no earlier than the last event's. */
  ghost predicate Usable(es: History, a: Attempt) {
    a.ok ==>
      !IdOf(es, a.eventId) && a.eventId != "" && a.now != "" && (es != [] ==> !Less(a.now, es[|es|-1].createdAt))
  }

  /** The successful appends of one call get new, distinct ids and a clock that does not go back. */
  ghost predicate Schedule(es: History, plan: seq<Attempt>) {
    && (forall k :: 0 <= k < |plan| ==> Usable(es, plan[k]))
    && forall j, k :: 0 <= j < k < |plan| && plan[j].ok && plan[k].ok ==>
         plan[j].eventId != plan[k].eventId && !Less(plan[k].now, plan[j].now)
  }

  /** At most one event was appended, with the id and time of the attempt. */
  predicate Took(before: History, after: History, a: Attempt) {
    || after == before
    || (a.ok && |after| == |before| + 1 && after[..|before|] == before
        && after[|before|].id == a.eventId && after[|before|].createdAt == a.now)
  }

  lemma UsableAfter(before: History, after: History, a: Attempt, b: Attempt)
    requires Took(before, after, a) && Usable(before, b)
    requires a.ok && b.ok ==> a.eventId != b.eventId && !Less(b.now, a.now)
    ensures Usable(after, b)
  {
    if b.ok && after != before {
      forall k | 0 <= k < |after| ensures after[k].id != b.eventId {
        if k < |before| { assert after[..|before|][k] == after[k]; }
      }
    }
  }

  /** The rest of the plan is still good. */
  lemma Scheduled(before: History, after: History, plan: seq<Attempt>)
    requires plan != [] && Schedule(before, plan) && Took(before, after, plan[0])
    ensures Schedule(after, plan[1..])
  {
    hide Took, Usable;
    forall k | 0 <= k < |plan[1..]| ensures Usable(after, plan[1..][k]) {
      UsableAfter(before, after, plan[0], plan[k + 1]);
    }
  }

  lemma Skipped(es: History, plan: seq<Attempt>)
    requires plan != [] && Schedule(es, plan)
    ensures Schedule(es, plan[1..])
  {
    Scheduled(es, es, plan);
  }

  /** The first of a plan. */
  lemma First(es: History, a: Attempt, rest: seq<Attempt>)
    requires Schedule(es, [a] + rest)
    ensures Usable(es, a)
  {
    hide Usable;
    assert ([a] + rest)[0] == a;
  }

  lemma Then(before: History, after: History, a: Attempt, rest: seq<Attempt>)
    requires Schedule(before, [a] + rest) && Took(before, after, a)
    ensures Schedule(after, rest)
  {
    Scheduled(before, after, [a] + rest);
    assert ([a] + rest)[1..] == rest;
  }

  lemma Later(es: History, a: Attempt, rest: seq<Attempt>)
    requires Schedule(es, [a] + rest)
    ensures Schedule(es, rest)
  {
    Skipped(es, [a] + rest);
    assert ([a] + rest)[1..] == rest;
  }
}
