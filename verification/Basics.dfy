/** What several components share. */
module Basics {

  datatype Option<+T> = None | Some(value: T)

  /** There is always a number nobody has taken yet. */
  lemma {:induction false} Unused(taken: set<nat>) returns (n: nat)
    ensures n !in taken && forall k :: k in taken ==> k < n
  {
    if taken == {} {
      n := 0;
      return;
    }
    var k :| k in taken;
    var m := Unused(taken - {k});
    n := if k < m then m else k + 1;
    assert forall i :: i in taken ==> i == k || i in taken - {k};
  }

  lemma SubsetSize<T>(a: set<T>, b: set<T>)
    requires a <= b
    ensures |a| <= |b|
  {
    assert b == a + (b - a);
  }
}
