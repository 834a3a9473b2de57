/** Logs in which every event obeys a rule, given everything before it. */
module Histories {

  ghost predicate Obeyed<E(!new)>(rule: (seq<E>, E) -> bool, log: seq<E>) {
    forall i :: 0 <= i < |log| ==> rule(log[..i], log[i])
  }

  lemma ObeyedNext<E(!new)>(rule: (seq<E>, E) -> bool, log: seq<E>, e: E)
    requires Obeyed(rule, log) && rule(log, e)
    ensures Obeyed(rule, log + [e])
  {
    var all := log + [e];
    forall i | 0 <= i < |all| ensures rule(all[..i], all[i]) {
      assert all[..i] == if i < |log| then log[..i] else log;
    }
  }

  lemma ObeyedAt<E(!new)>(rule: (seq<E>, E) -> bool, log: seq<E>, i: nat)
    requires Obeyed(rule, log) && i < |log|
    ensures rule(log[..i], log[i])
  {
  }
}
