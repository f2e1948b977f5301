/** Counting facts about finite sets that Dafny does not volunteer. */
module Sets {

  lemma SubsetCount<T>(a: set<T>, b: set<T>)
    requires a <= b
    ensures |a| <= |b|
  {
    assert b == a + (b - a);
  }

  /** The size of a set, told apart at one element. */
  lemma CountAt<T>(a: set<T>, x: T)
    ensures |a| == |a - {x}| + if x in a then 1 else 0
  {
    if x in a {
      assert a == a - {x} + {x};
    } else {
      assert a == a - {x};
    }
  }

  /** Two sets that agree except at `x`. */
  lemma CountMoves<T>(a: set<T>, b: set<T>, x: T)
    requires a - {x} == b - {x}
    ensures |b| == |a| - (if x in a then 1 else 0) + (if x in b then 1 else 0)
  {
    CountAt(a, x);
    CountAt(b, x);
  }

  lemma MultisetInsert<T>(a: set<T>, x: T)
    requires x !in a
    ensures multiset(a + {x}) == multiset(a) + multiset{x}
  {
  }

  lemma MultisetDelete<T>(a: set<T>, x: T)
    requires x in a
    ensures multiset(a) == multiset(a - {x}) + multiset{x}
  {
    assert a == a - {x} + {x};
  }

  lemma HasMember(s: set<int>)
    ensures s == {} || exists x :: x in s
  {
    if forall x :: x !in s {
      assert s == {};
    }
  }
}
