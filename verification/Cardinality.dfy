/** Counting facts about finite sets of process ids. */
module Cardinality {

  function In(p: nat, a: set<nat>): nat {
    if p in a then 1 else 0
  }

  lemma But(a: set<nat>, b: set<nat>, p: nat)
    requires a - {p} == b - {p}
    ensures |a| - In(p, a) == |b| - In(p, b)
  {
    assert a == (a - {p}) + if p in a then {p} else {};
    assert b == (b - {p}) + if p in b then {p} else {};
  }

  lemma Split(a: set<nat>, b: set<nat>)
    ensures |a| == |a - b| + |a * b|
  {
  }
}
