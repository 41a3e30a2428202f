/** Cardinalities and choice on finite sets. */
module FiniteSets {

  lemma {:induction false} SubsetSize<T>(small: set<T>, big: set<T>)
    requires small <= big
    ensures |small| <= |big|
  {
    if small == {} {
    } else {
      var x :| x in small;
      SubsetSize(small - {x}, big - {x});
    }
  }

  lemma SameSize<T>(small: set<T>, big: set<T>)
    requires small <= big && |big| <= |small|
    ensures small == big
  {
    assert |big - small| == |big| - |small|;
    assert big == small + (big - small);
  }

  lemma Inhabited(ids: set<int>)
    ensures ids == {} || exists i :: i in ids
  {
    if forall i :: i !in ids {
      assert ids == {};
    }
  }

  /** A set has a subset of each smaller size. */
  lemma {:induction false} SubsetOfSize(ids: set<int>, n: nat) returns (some: set<int>)
    requires n <= |ids|
    ensures some <= ids && |some| == n
    decreases ids
  {
    if n == |ids| {
      some := ids;
    } else {
      Inhabited(ids);
      var i :| i in ids;
      some := SubsetOfSize(ids - {i}, n);
    }
  }
}
