/** Sequences without repetition, and sets of at most one element. */
module Sequences {
  predicate NoRepeat<T(==)>(s: seq<T>) {
    forall j, k :: 0 <= j < k < |s| ==> s[j] != s[k]
  }

  lemma NoRepeatConcat<T>(a: seq<T>, b: seq<T>)
    requires NoRepeat(a) && NoRepeat(b) && forall x :: x in a ==> x !in b
    ensures NoRepeat(a + b)
  {
    forall j, k | 0 <= j < k < |a + b|
      ensures (a + b)[j] != (a + b)[k]
    {
      if j < |a| <= k {
        assert a[j] in a && b[k - |a|] in b;
      }
    }
  }

  lemma CardinalityLe<T>(a: set<T>, b: set<T>)
    requires a <= b
    ensures |a| <= |b|
  {
    assert b == a + (b - a);
  }

  lemma SameMember<T>(a: set<T>, x: T, y: T)
    requires |a| <= 1 && x in a && y in a
    ensures x == y
  {
    if x != y { CardinalityLe({x, y}, a); }
  }

  lemma TwoMembers<T>(a: set<T>) returns (x: T, y: T)
    requires |a| > 1
    ensures x != y && {x, y} <= a
  {
    x :| x in a;
    assert |a - {x}| == |a| - 1;
    y :| y in a - {x};
  }
}
