/** Counting facts about finite sets. */
module FiniteSets {

  function Range(from: nat, size: nat): (r: set<nat>)
    ensures |r| == size && forall i: nat :: i in r <==> from <= i < from + size
  {
    if size == 0 then {} else Range(from, size - 1) + {from + size - 1}
  }

  lemma SubsetSize<T>(a: set<T>, b: set<T>)
    requires a <= b
    ensures |a| <= |b|
  {
    assert b == a + (b - a);
  }

  lemma TwoMembers<T>(s: set<T>, a: T, b: T)
    requires a in s && b in s
    ensures a != b ==> |s| >= 2
  {
    assert |s| == |s - {a, b}| + |{a, b}|;
  }

  lemma LeastOf(a: set<nat>) returns (low: nat)
    requires a != {}
    ensures low in a && forall i | i in a :: low <= i
    decreases a
  {
    var first :| first in a;
    if a == {first} {
      return first;
    }
    var next := LeastOf(a - {first});
    low := if next < first then next else first;
    assert forall i | i in a :: i == first || i in a - {first};
  }
}
