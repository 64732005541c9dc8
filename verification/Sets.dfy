/** Finite sets and their sizes. */
module Sets {
  /** Who is listed. */
  function Elements<T>(s: seq<T>): set<T> {
    set x | x in s
  }

  lemma {:induction false} SubsetSize<T>(a: set<T>, b: set<T>)
    requires a <= b
    ensures |a| <= |b|
  {
    if a != {} {
      var x :| x in a;
      SubsetSize(a - {x}, b - {x});
    }
  }

  lemma ProperSubsetSize<T>(a: set<T>, b: set<T>)
    requires a < b
    ensures |a| < |b|
  {
    assert b == a + (b - a);
    assert b - a != {};
  }

  lemma SameSizeSubset<T>(a: set<T>, b: set<T>)
    requires |a| == |b| && a != b
    ensures a - b != {}
  {
    if a <= b {
      ProperSubsetSize(a, b);
    } else {
      var x :| x in a && x !in b;
      assert x in a - b;
    }
  }
}
