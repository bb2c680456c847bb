/** Cardinality facts about finite sets. */
module Sets {
  lemma {:induction false} SubsetSize<T>(a: set<T>, b: set<T>)
    requires a <= b
    ensures |a| <= |b|
  {
    if a != {} {
      var x :| x in a;
      SubsetSize(a - {x}, b - {x});
    }
  }

  lemma UnionSize<T>(a: set<T>, b: set<T>)
    requires a !! b
    ensures |a + b| == |a| + |b|
  {
  }

  lemma DifferenceSize<T>(a: set<T>, b: set<T>)
    requires b <= a
    ensures |a - b| == |a| - |b|
  {
    UnionSize(a - b, b);
    assert (a - b) + b == a;
  }

  /** Some `n` elements of a set with at least `n`. */
  ghost function Take<T>(s: set<T>, n: nat): (r: set<T>)
    requires n <= |s|
    ensures r <= s && |r| == n
  {
    if n == 0 then {}
    else
      var x :| x in s;
      {x} + Take(s - {x}, n - 1)
  }

  lemma SubsetOfSameSize<T>(a: set<T>, b: set<T>)
    requires a <= b && |a| == |b|
    ensures a == b
  {
    DifferenceSize(b, a);
  }
}
