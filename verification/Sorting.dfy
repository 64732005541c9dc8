/**
 Go's `slices.Sort`, `sort.Strings` and `sort.SliceStable` as one function over a comparator, with
 the two facts their callers rely on: the result is a sorted rearrangement, and there is only one.
 */
module Sorting {

  ghost predicate StrictTotalOrder<T(!new)>(less: (T, T) -> bool) {
    && (forall x, y :: less(x, y) ==> !less(y, x))
    && (forall x, y, z :: less(x, y) && less(y, z) ==> less(x, z))
    && (forall x, y :: x == y || less(x, y) || less(y, x))
  }

  ghost predicate Sorted<T>(less: (T, T) -> bool, s: seq<T>) {
    forall i, j :: 0 <= i < j < |s| ==> !less(s[j], s[i])
  }

  ghost predicate Distinct<T>(s: seq<T>) {
    forall i, j :: 0 <= i < j < |s| ==> s[i] != s[j]
  }

  /** `x` put in front of the first element that it does not come after. */
  function Insert<T>(less: (T, T) -> bool, x: T, s: seq<T>): (r: seq<T>)
    ensures multiset(r) == multiset(s) + multiset{x}
  {
    if s == [] then [x]
    else
      assert s == [s[0]] + s[1..];
      if less(s[0], x) then [s[0]] + Insert(less, x, s[1..]) else [x] + s
  }

  function Sort<T>(less: (T, T) -> bool, s: seq<T>): (r: seq<T>)
    ensures multiset(r) == multiset(s)
    ensures |r| == |s|
  {
    if s == [] then []
    else
      assert s == [s[0]] + s[1..];
      var r := Insert(less, s[0], Sort(less, s[1..]));
      SameSize(r, s);
      r
  }

  lemma SameSize<T>(a: seq<T>, b: seq<T>)
    requires multiset(a) == multiset(b)
    ensures |a| == |b|
  {
    assert |multiset(a)| == |a| && |multiset(b)| == |b|;
  }

  lemma {:induction false} InsertSorted<T(!new)>(less: (T, T) -> bool, x: T, s: seq<T>)
    requires StrictTotalOrder(less) && Sorted(less, s)
    ensures Sorted(less, Insert(less, x, s))
  {
    if s != [] && less(s[0], x) {
      var rest := Insert(less, x, s[1..]);
      InsertSorted(less, x, s[1..]);
      forall k | 0 <= k < |rest| ensures !less(rest[k], s[0]) {
        assert rest[k] in multiset(rest);
        assert rest[k] == x || rest[k] in s[1..];
      }
    }
  }

  lemma {:induction false} SortSorts<T(!new)>(less: (T, T) -> bool, s: seq<T>)
    requires StrictTotalOrder(less)
    ensures Sorted(less, Sort(less, s))
  {
    if s != [] {
      SortSorts(less, s[1..]);
      InsertSorted(less, s[0], Sort(less, s[1..]));
    }
  }

  lemma SortedTail<T(!new)>(less: (T, T) -> bool, s: seq<T>)
    requires Sorted(less, s) && s != []
    ensures Sorted(less, s[1..]) && multiset(s) == multiset{s[0]} + multiset(s[1..])
  {
    assert s == [s[0]] + s[1..];
  }

  lemma LeastFirst<T(!new)>(less: (T, T) -> bool, a: seq<T>, b: seq<T>)
    requires StrictTotalOrder(less) && Sorted(less, a) && Sorted(less, b)
    requires a != [] && b != [] && a[0] in b && b[0] in a
    ensures a[0] == b[0]
  {
    var i :| 0 <= i < |b| && b[i] == a[0];
    var j :| 0 <= j < |a| && a[j] == b[0];
  }

  /** A multiset has one sorted listing. */
  lemma {:induction false} SortedUnique<T(!new)>(less: (T, T) -> bool, a: seq<T>, b: seq<T>)
    requires StrictTotalOrder(less) && Sorted(less, a) && Sorted(less, b)
    requires multiset(a) == multiset(b)
    ensures a == b
  {
    SameSize(a, b);
    if a != [] {
      assert a[0] in multiset(a) && b[0] in multiset(b);
      LeastFirst(less, a, b);
      SortedTail(less, a);
      SortedTail(less, b);
      SameRest(multiset{a[0]}, multiset(a[1..]), multiset(b[1..]));
      SortedUnique(less, a[1..], b[1..]);
      assert a == [a[0]] + a[1..] && b == [b[0]] + b[1..];
    }
  }

  lemma SameRest<T>(x: multiset<T>, y: multiset<T>, z: multiset<T>)
    requires x + y == x + z
    ensures y == z
  {
    assert y == (x + y) - x && z == (x + z) - x;
  }

  lemma SortOfSorted<T(!new)>(less: (T, T) -> bool, s: seq<T>)
    requires StrictTotalOrder(less) && Sorted(less, s)
    ensures Sort(less, s) == s
  {
    SortSorts(less, s);
    SortedUnique(less, Sort(less, s), s);
  }

  lemma RepetitionCounts<T>(s: seq<T>, i: nat, j: nat)
    requires i < j < |s| && s[i] == s[j]
    ensures multiset(s)[s[i]] >= 2
  {
    assert s == s[..j] + s[j..];
    assert s[i] in s[..j] && s[i] in s[j..];
    assert multiset(s) == multiset(s[..j]) + multiset(s[j..]);
  }

  /** A listing of a set names each element once. */
  lemma ListingOfSet<T>(r: seq<T>, s: set<T>)
    requires multiset(r) == multiset(s)
    ensures Distinct(r)
    ensures forall x :: x in r <==> x in s
  {
    forall x ensures x in r <==> x in s { assert x in r <==> x in multiset(r); }
    if i, j :| 0 <= i < j < |r| && r[i] == r[j] {
      RepetitionCounts(r, i, j);
    }
  }

  /** All but the element at `p`. */
  function Without<T>(s: seq<T>, p: nat): (r: seq<T>)
    requires p < |s|
    ensures |r| == |s| - 1
    ensures forall k :: 0 <= k < |r| ==> r[k] == s[if k < p then k else k + 1]
  {
    seq(|s| - 1, k requires 0 <= k < |s| - 1 => s[if k < p then k else k + 1])
  }

  lemma WithoutPrefix<T>(s: seq<T>, p: nat)
    requires p < |s| - 1
    ensures |Without(s, p)| == |s| - 1
    ensures Without(s, p)[..|s| - 2] == Without(s[..|s| - 1], p)
    ensures Without(s, p)[|s| - 2] == s[|s| - 1]
  {
  }

  lemma WithoutLast<T>(s: seq<T>)
    requires s != []
    ensures Without(s, |s| - 1) == s[..|s| - 1]
  {
  }

  lemma {:induction false} WithoutMultiset<T>(s: seq<T>, p: nat)
    requires p < |s|
    ensures multiset(s) == multiset(Without(s, p)) + multiset{s[p]}
  {
    var n := |s| - 1;
    assert s == s[..n] + [s[n]];
    if p == n {
      WithoutLast(s);
    } else {
      WithoutPrefix(s, p);
      WithoutMultiset(s[..n], p);
      assert Without(s, p) == Without(s[..n], p) + [s[n]];
    }
  }

  /** Of two listings of one multiset, the last of one sits somewhere in the other. */
  lemma MatchLast<T>(a: seq<T>, b: seq<T>) returns (p: nat)
    requires multiset(a) == multiset(b) && a != []
    ensures p < |b| && b[p] == a[|a| - 1]
    ensures multiset(a[..|a| - 1]) == multiset(Without(b, p))
  {
    var x := a[|a| - 1];
    assert a == a[..|a| - 1] + [x];
    assert x in multiset(b);
    p :| 0 <= p < |b| && b[p] == x;
    WithoutMultiset(b, p);
    assert multiset(a) == multiset(a[..|a| - 1]) + multiset{x};
    assert multiset(Without(b, p)) == multiset(b) - multiset{x};
  }

  // ---------- names ----------

  /** Go's `<` on strings. */
  predicate NameLess(a: string, b: string) {
    b != "" && (a == "" || a[0] < b[0] || (a[0] == b[0] && NameLess(a[1..], b[1..])))
  }

  /** The first `k` characters agree, and then `a` ends or has the smaller one. */
  ghost predicate DiffersAt(a: string, b: string, k: nat) {
    k <= |a| && k < |b| && a[..k] == b[..k] && (k == |a| || a[k] < b[k])
  }

  /** It is the lexicographic order of the characters. */
  lemma {:induction false} NameLessIs(a: string, b: string)
    ensures NameLess(a, b) <==> exists k: nat :: DiffersAt(a, b, k)
  {
    if b != "" && a != "" && a[0] == b[0] {
      NameLessIs(a[1..], b[1..]);
      if NameLess(a[1..], b[1..]) {
        var k: nat :| DiffersAt(a[1..], b[1..], k);
        assert a[..k + 1] == [a[0]] + a[1..][..k] && b[..k + 1] == [b[0]] + b[1..][..k];
        assert DiffersAt(a, b, k + 1);
      }
      if k: nat :| DiffersAt(a, b, k) {
        assert k > 0;
        assert a[1..][..k - 1] == a[..k][1..] && b[1..][..k - 1] == b[..k][1..];
        assert DiffersAt(a[1..], b[1..], k - 1);
      }
    } else {
      if NameLess(a, b) { assert DiffersAt(a, b, 0); }
      forall k: nat | DiffersAt(a, b, k) ensures NameLess(a, b) {
        if k > 0 { assert a[..k][0] == b[..k][0]; }
      }
    }
  }

  lemma {:induction false} NameLessAsymmetric(a: string, b: string)
    ensures NameLess(a, b) ==> !NameLess(b, a)
    ensures a == b || NameLess(a, b) || NameLess(b, a)
  {
    if a != "" && b != "" && a[0] == b[0] {
      assert a == [a[0]] + a[1..] && b == [b[0]] + b[1..];
      NameLessAsymmetric(a[1..], b[1..]);
    }
  }

  lemma {:induction false} NameLessTransitive(a: string, b: string, c: string)
    requires NameLess(a, b) && NameLess(b, c)
    ensures NameLess(a, c)
  {
    if a != "" && a[0] == b[0] == c[0] {
      NameLessTransitive(a[1..], b[1..], c[1..]);
    }
  }

  lemma NamesAreOrdered()
    ensures StrictTotalOrder(NameLess)
  {
    forall x, y ensures NameLess(x, y) ==> !NameLess(y, x) { NameLessAsymmetric(x, y); }
    forall x, y ensures x == y || NameLess(x, y) || NameLess(y, x) { NameLessAsymmetric(x, y); }
    forall x, y, z | NameLess(x, y) && NameLess(y, z) ensures NameLess(x, z) { NameLessTransitive(x, y, z); }
  }
}
