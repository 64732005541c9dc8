/**
 The counting theory that metro placement and the scale-down balancer share.

 A vector of per-site counts is filled one unit at a time at the least-loaded site, or drained one
 unit at a time at the most-loaded site; ties go to the lowest index both times. `IsFill` and
 `IsDrain` say what such a run leaves behind without mentioning the run, and each pins its result
 down together with the total. Everything about confluence and optimality follows from that.
 */
module GreedyBalance {

  // ---------- totals ----------

  function Sum(c: seq<nat>): nat {
    SumTo(c, |c|)
  }

  /** The total of the first `n` counts. */
  function SumTo(c: seq<nat>, n: nat): nat
    requires n <= |c|
  {
    if n == 0 then 0 else SumTo(c, n - 1) + c[n - 1]
  }

  lemma {:induction false} SumToOfUpdate(c: seq<nat>, n: nat, i: nat, x: nat)
    requires n <= |c| && i < |c|
    ensures SumTo(c[i := x], n) == SumTo(c, n) + if i < n then x - c[i] else 0
  {
    if n > 0 {
      SumToOfUpdate(c, n - 1, i, x);
    }
  }

  ghost predicate Below(a: seq<nat>, b: seq<nat>) {
    |a| == |b| && forall i :: 0 <= i < |a| ==> a[i] <= b[i]
  }

  lemma {:induction false} SumToMonotone(a: seq<nat>, b: seq<nat>, n: nat)
    requires Below(a, b) && n <= |a|
    ensures SumTo(a, n) <= SumTo(b, n)
    ensures SumTo(a, n) == SumTo(b, n) ==> a[..n] == b[..n]
  {
    if n > 0 {
      SumToMonotone(a, b, n - 1);
      assert a[..n] == a[..n - 1] + [a[n - 1]] && b[..n] == b[..n - 1] + [b[n - 1]];
    }
  }

  /** Pointwise order is reflected by the totals, strictly as soon as the vectors differ. */
  lemma SumMonotone(a: seq<nat>, b: seq<nat>)
    requires Below(a, b)
    ensures Sum(a) <= Sum(b)
    ensures Sum(a) == Sum(b) ==> a == b
  {
    SumToMonotone(a, b, |a|);
    assert a == a[..|a|] && b == b[..|b|];
  }

  /** Two different vectors with one total each exceed the other somewhere. */
  lemma SameSumCrosses(a: seq<nat>, b: seq<nat>) returns (i: nat)
    requires |a| == |b| && Sum(a) == Sum(b) && a != b
    ensures i < |a| && a[i] > b[i]
  {
    if !exists k :: 0 <= k < |a| && a[k] > b[k] {
      assert Below(a, b);
      SumMonotone(a, b);
      assert false;
    }
    i :| 0 <= i < |a| && a[i] > b[i];
  }

  // ---------- the two scans ----------

  /** The first index among the first `n` holding their smallest count. */
  function LeastTo(c: seq<nat>, n: nat): (i: nat)
    requires 0 < n <= |c|
    ensures i < n
  {
    if n == 1 then 0 else
      var i := LeastTo(c, n - 1);
      if c[n - 1] < c[i] then n - 1 else i
  }

  /** The first index among the first `n` holding their largest count. */
  function MostTo(c: seq<nat>, n: nat): (i: nat)
    requires 0 < n <= |c|
    ensures i < n
  {
    if n == 1 then 0 else
      var i := MostTo(c, n - 1);
      if c[n - 1] > c[i] then n - 1 else i
  }

  function LeastIndex(c: seq<nat>): (i: nat)
    requires |c| > 0
    ensures i < |c|
  {
    LeastTo(c, |c|)
  }

  function MostIndex(c: seq<nat>): (i: nat)
    requires |c| > 0
    ensures i < |c|
  {
    MostTo(c, |c|)
  }

  lemma {:induction false} LeastToIsFirstLeast(c: seq<nat>, n: nat)
    requires 0 < n <= |c|
    ensures forall j :: 0 <= j < n ==> c[LeastTo(c, n)] <= c[j]
    ensures forall j :: 0 <= j < LeastTo(c, n) ==> c[LeastTo(c, n)] < c[j]
  {
    if n > 1 {
      LeastToIsFirstLeast(c, n - 1);
    }
  }

  lemma {:induction false} MostToIsFirstMost(c: seq<nat>, n: nat)
    requires 0 < n <= |c|
    ensures forall j :: 0 <= j < n ==> c[j] <= c[MostTo(c, n)]
    ensures forall j :: 0 <= j < MostTo(c, n) ==> c[j] < c[MostTo(c, n)]
  {
    if n > 1 {
      MostToIsFirstMost(c, n - 1);
    }
  }

  /** The scan for the least-loaded site returns the first smallest count. */
  lemma LeastIsFirst(c: seq<nat>)
    requires |c| > 0
    ensures forall j :: 0 <= j < |c| ==> c[LeastIndex(c)] <= c[j]
    ensures forall j :: 0 <= j < LeastIndex(c) ==> c[LeastIndex(c)] < c[j]
  {
    LeastToIsFirstLeast(c, |c|);
  }

  /** The scan for the most-loaded site returns the first largest count. */
  lemma MostIsFirst(c: seq<nat>)
    requires |c| > 0
    ensures forall j :: 0 <= j < |c| ==> c[j] <= c[MostIndex(c)]
    ensures forall j :: 0 <= j < MostIndex(c) ==> c[j] < c[MostIndex(c)]
  {
    MostToIsFirstMost(c, |c|);
  }

  function Bump(c: seq<nat>, i: nat): (r: seq<nat>)
    requires i < |c|
    ensures Sum(r) == Sum(c) + 1
  {
    SumToOfUpdate(c, |c|, i, c[i] + 1);
    c[i := c[i] + 1]
  }

  // ---------- greedy fill ----------

  /** `k` units added one at a time, each at the currently least-loaded site. */
  function Fill(c: seq<nat>, k: nat): (f: seq<nat>)
    requires |c| > 0
    ensures |f| == |c|
    ensures Sum(f) == Sum(c) + k
  {
    if k == 0 then c else var f := Fill(c, k - 1); Bump(f, LeastIndex(f))
  }

  /** The site the (r+1)-st unit goes to. */
  function Slot(c: seq<nat>, r: nat): (i: nat)
    requires |c| > 0
    ensures i < |c|
  {
    LeastIndex(Fill(c, r))
  }

  /** A unit at `level` of column `i` comes no later than one at `level'` of column `i'`. */
  predicate Before(level: int, i: int, level': int, i': int) {
    level < level' || (level == level' && i <= i')
  }

  /** Every added unit comes before every unit still free. */
  ghost predicate IsFill(c: seq<nat>, f: seq<nat>) {
    && Below(c, f)
    && forall i, j :: 0 <= i < |f| && 0 <= j < |f| && c[i] < f[i] ==> Before(f[i] - 1, i, f[j], j)
  }

  lemma {:induction false} FillIsFill(c: seq<nat>, k: nat)
    requires |c| > 0
    ensures IsFill(c, Fill(c, k))
  {
    if k > 0 {
      FillIsFill(c, k - 1);
      LeastIsFirst(Fill(c, k - 1));
    }
  }

  /** The base and the total determine a greedy fill. */
  lemma FillUnique(c: seq<nat>, f: seq<nat>, g: seq<nat>)
    requires IsFill(c, f) && IsFill(c, g) && Sum(f) == Sum(g)
    ensures f == g
  {
    if f != g {
      var i := SameSumCrosses(f, g);
      var j := SameSumCrosses(g, f);
      assert false;
    }
  }

  /**
   Absorption: a vector anywhere between the base and its greedy fill fills up to the same result.
   So it does not matter in which order the units of a fill arrive.
   */
  lemma FillAbsorbs(c: seq<nat>, k: nat, d: seq<nat>, m: nat)
    requires |c| > 0
    requires Below(c, d) && Below(d, Fill(c, k))
    requires Sum(d) + m == Sum(c) + k
    ensures Fill(d, m) == Fill(c, k)
  {
    FillIsFill(c, k);
    FillIsFill(d, m);
    assert IsFill(d, Fill(c, k));
    FillUnique(d, Fill(d, m), Fill(c, k));
  }

  lemma FillIs(c: seq<nat>, f: seq<nat>, n: nat)
    requires |c| > 0 && IsFill(c, f) && Sum(f) == Sum(c) + n
    ensures f == Fill(c, n)
  {
    FillIsFill(c, n);
    FillUnique(c, f, Fill(c, n));
  }

  lemma {:induction false} FillGrows(c: seq<nat>, k: nat, more: nat)
    requires |c| > 0
    ensures Below(Fill(c, k), Fill(c, k + more))
  {
    if more > 0 {
      FillGrows(c, k, more - 1);
    }
  }

  /** A greedy fill stays one for any counts that part of it leads to. */
  lemma StillFill(c: seq<nat>, k: nat, d: seq<nat>, f: seq<nat>)
    requires |c| > 0 && IsFill(c, f) && Sum(c) + k <= Sum(f)
    requires Below(c, d) && Below(d, Fill(c, k))
    ensures IsFill(d, f)
  {
    var n := Sum(f) - Sum(c);
    FillIsFill(c, n);
    FillUnique(c, f, Fill(c, n));
    FillGrows(c, k, n - k);
  }

  /** The sites the first `k` units go to, in order. */
  function Slots(c: seq<nat>, k: nat): (s: seq<nat>)
    requires |c| > 0
    ensures |s| == k
  {
    if k == 0 then [] else Slots(c, k - 1) + [Slot(c, k - 1)]
  }

  lemma {:induction false} SlotsAt(c: seq<nat>, k: nat, r: nat)
    requires |c| > 0 && r < k
    ensures Slots(c, k)[r] == Slot(c, r)
  {
    if r < k - 1 {
      SlotsAt(c, k - 1, r);
    }
  }

  /** One unit added at each of the listed sites. */
  function AddAll(c: seq<nat>, s: seq<nat>): (r: seq<nat>)
    requires forall r :: 0 <= r < |s| ==> s[r] < |c|
    ensures |r| == |c|
  {
    if s == [] then c else Bump(AddAll(c, s[..|s| - 1]), s[|s| - 1])
  }

  lemma {:induction false} AddAllColumn(c: seq<nat>, s: seq<nat>, i: nat)
    requires (forall r :: 0 <= r < |s| ==> s[r] < |c|) && i < |c|
    ensures AddAll(c, s)[i] == c[i] + multiset(s)[i]
  {
    if s != [] {
      AddAllColumn(c, s[..|s| - 1], i);
      assert s == s[..|s| - 1] + [s[|s| - 1]];
    }
  }

  lemma {:induction false} FillIsAddAll(c: seq<nat>, k: nat)
    requires |c| > 0
    ensures forall r :: 0 <= r < k ==> Slots(c, k)[r] < |c|
    ensures Fill(c, k) == AddAll(c, Slots(c, k))
  {
    if k > 0 {
      FillIsAddAll(c, k - 1);
      assert Slots(c, k)[..k - 1] == Slots(c, k - 1);
    }
  }

  /** Column `i` of a fill holds its base plus the units that went there. */
  lemma FillColumn(c: seq<nat>, k: nat, i: nat)
    requires |c| > 0 && i < |c|
    ensures Fill(c, k)[i] == c[i] + multiset(Slots(c, k))[i]
  {
    FillIsAddAll(c, k);
    AddAllColumn(c, Slots(c, k), i);
  }

  // ---------- largest, smallest, spread ----------

  function Max(c: seq<nat>): nat
    requires |c| > 0
  {
    c[MostIndex(c)]
  }

  function Min(c: seq<nat>): nat
    requires |c| > 0
  {
    c[LeastIndex(c)]
  }

  lemma Extremes(c: seq<nat>)
    requires |c| > 0
    ensures forall j :: 0 <= j < |c| ==> Min(c) <= c[j] <= Max(c)
  {
    LeastIsFirst(c);
    MostIsFirst(c);
  }

  ghost predicate WithinOne(c: seq<nat>) {
    |c| > 0 && Max(c) <= Min(c) + 1
  }

  /** No other way of adding the same number of units does better at either end. */
  lemma FillOptimal(c: seq<nat>, f: seq<nat>, g: seq<nat>)
    requires |c| > 0 && IsFill(c, f)
    requires Below(c, g) && Sum(g) == Sum(f)
    ensures Min(g) <= Min(f)
    ensures Max(f) <= Max(g)
  {
    Extremes(f);
    Extremes(g);
    if f != g {
      var i := SameSumCrosses(f, g);
      var lo := LeastIndex(f);
      assert Before(f[i] - 1, i, f[lo], lo);
      var hi := MostIndex(f);
      if Max(g) < f[hi] {
        assert forall j :: 0 <= j < |f| ==> Before(f[hi] - 1, hi, f[j], j);
        assert Below(g, f);
        SumMonotone(g, f);
        assert false;
      }
    }
  }

  /** The counts raised to `floor` wherever they lie below it. */
  function RaisedTo(c: seq<nat>, floor: nat): (r: seq<nat>)
    ensures |r| == |c|
    ensures forall i :: 0 <= i < |c| ==> r[i] == if c[i] < floor then floor else c[i]
  {
    seq(|c|, i requires 0 <= i < |c| => if c[i] < floor then floor else c[i])
  }

  /** The units needed to lift every site to one below the fullest. */
  function Deficit(c: seq<nat>): (d: int)
    requires |c| > 0
  {
    Sum(RaisedTo(c, if Max(c) == 0 then 0 else Max(c) - 1)) - Sum(c)
  }

  /** Self-healing, exactly: the spread drops to one if and only if the deficit is covered. */
  lemma FillHealsIff(c: seq<nat>, k: nat)
    requires |c| > 0
    ensures WithinOne(Fill(c, k)) <==> k >= Deficit(c)
  {
    var f := Fill(c, k);
    var floor := if Max(c) == 0 then 0 else Max(c) - 1;
    var r := RaisedTo(c, floor);
    FillIsFill(c, k);
    Extremes(c);
    Extremes(f);
    assert f[MostIndex(c)] >= Max(c);
    if WithinOne(f) {
      assert Below(r, f);
      SumMonotone(r, f);
    } else if k >= Deficit(c) {
      var lo, hi := LeastIndex(f), MostIndex(f);
      if c[hi] < f[hi] { assert false; }
      forall i | 0 <= i < |f| ensures f[i] <= r[i] {
        if c[i] < f[i] { assert Before(f[i] - 1, i, f[lo], lo); }
      }
      SumMonotone(f, r);
      assert false;
    }
  }

  /** In particular the coarser bound of the design suffices: enough units to level with the fullest. */
  lemma FillHeals(c: seq<nat>, k: nat)
    requires |c| > 0
    requires Sum(c) + k >= Sum(RaisedTo(c, Max(c)))
    ensures WithinOne(Fill(c, k))
  {
    var floor := if Max(c) == 0 then 0 else Max(c) - 1;
    Extremes(c);
    SumMonotone(RaisedTo(c, floor), RaisedTo(c, Max(c)));
    FillHealsIff(c, k);
  }

  // ---------- greedy drain ----------

  /** `k` units removed one at a time, each at the currently most-loaded site. */
  function Drain(c: seq<nat>, k: nat): (d: seq<nat>)
    requires |c| > 0 && k <= Sum(c)
    ensures |d| == |c|
    ensures Sum(d) == Sum(c) - k
  {
    if k == 0 then c else
      var d := Drain(c, k - 1);
      var i := MostIndex(d);
      PositiveTop(d);
      SumToOfUpdate(d, |d|, i, d[i] - 1);
      d[i := d[i] - 1]
  }

  lemma PositiveTop(d: seq<nat>)
    requires |d| > 0 && Sum(d) > 0
    ensures d[MostIndex(d)] > 0
  {
    MostIsFirst(d);
    SumAtMost(d, |d|, d[MostIndex(d)]);
  }

  lemma {:induction false} SumAtMost(d: seq<nat>, n: nat, m: nat)
    requires n <= |d|
    requires forall i :: 0 <= i < n ==> d[i] <= m
    ensures SumTo(d, n) <= n * m
  {
    if n > 0 {
      SumAtMost(d, n - 1, m);
    }
  }

  /** Every removed unit lies at or above every unit kept, lowest site first at one level. */
  ghost predicate IsDrain(c: seq<nat>, d: seq<nat>) {
    && Below(d, c)
    && forall i, j :: 0 <= i < |d| && 0 <= j < |d| && d[i] < c[i] ==> Before(d[j], i, d[i] + 1, j)
  }

  lemma {:induction false} DrainIsDrain(c: seq<nat>, k: nat)
    requires |c| > 0 && k <= Sum(c)
    ensures IsDrain(c, Drain(c, k))
  {
    if k > 0 {
      DrainIsDrain(c, k - 1);
      PositiveTop(Drain(c, k - 1));
      DrainStep(c, Drain(c, k - 1));
    }
  }

  lemma DrainStep(c: seq<nat>, d: seq<nat>)
    requires |d| > 0 && d[MostIndex(d)] > 0 && IsDrain(c, d)
    ensures var i := MostIndex(d); IsDrain(c, d[i := d[i] - 1])
  {
    MostIsFirst(d);
    var top := MostIndex(d);
    var e: seq<nat> := d[top := d[top] - 1];
    forall i, j | 0 <= i < |e| && 0 <= j < |e| && e[i] < c[i] ensures Before(e[j], i, e[i] + 1, j) {
      if i != top { assert Before(d[j], i, d[i] + 1, j); }
    }
  }

  lemma DrainUnique(c: seq<nat>, d: seq<nat>, e: seq<nat>)
    requires IsDrain(c, d) && IsDrain(c, e) && Sum(d) == Sum(e)
    ensures d == e
  {
    if d != e {
      var i := SameSumCrosses(d, e);
      var j := SameSumCrosses(e, d);
      assert false;
    }
  }

  /** No other way of removing the same number of units does better at either end. */
  lemma DrainOptimal(c: seq<nat>, d: seq<nat>, e: seq<nat>)
    requires |c| > 0 && IsDrain(c, d)
    requires Below(e, c) && Sum(e) == Sum(d)
    ensures Max(d) <= Max(e)
    ensures Min(e) <= Min(d)
  {
    Extremes(d);
    Extremes(e);
    if d != e {
      var j := SameSumCrosses(e, d);
      var hi := MostIndex(d);
      assert Before(d[hi], j, d[j] + 1, hi);
      var lo := LeastIndex(d);
      if d[lo] < Min(e) {
        assert forall i :: 0 <= i < |d| ==> Before(d[i], lo, d[lo] + 1, i);
        assert Below(d, e);
        SumMonotone(d, e);
        assert false;
      }
    }
  }

  /** Balance, once reached, survives filling. */
  lemma FillKeepsWithinOne(c: seq<nat>, k: nat)
    requires WithinOne(c)
    ensures WithinOne(Fill(c, k))
  {
    var floor := if Max(c) == 0 then 0 else Max(c) - 1;
    Extremes(c);
    assert RaisedTo(c, floor) == c;
    FillHealsIff(c, k);
  }

  /** Every removed unit lies at or above every unit kept, ties at one level broken in any way. */
  ghost predicate DrainsFromTop(c: seq<nat>, d: seq<nat>) {
    Below(d, c) && forall i, j :: 0 <= i < |d| && 0 <= j < |d| && d[i] < c[i] ==> d[j] <= d[i] + 1
  }

  /** ... and draining, however ties are broken. */
  lemma DrainKeepsWithinOne(c: seq<nat>, d: seq<nat>)
    requires WithinOne(c) && DrainsFromTop(c, d)
    ensures WithinOne(d)
  {
    Extremes(c);
    Extremes(d);
  }

  /** The distance between the two counts of a two-site vector. */
  function Gap(c: seq<nat>): nat
    requires |c| == 2
  {
    if c[0] < c[1] then c[1] - c[0] else c[0] - c[1]
  }

  lemma GapIsSpread(c: seq<nat>)
    requires |c| == 2
    ensures Gap(c) == Max(c) - Min(c)
  {
    assert Max(c) == if c[0] < c[1] then c[1] else c[0];
    assert Min(c) == if c[0] < c[1] then c[0] else c[1];
  }

  /**
   Two sites: draining `k` units leaves the old gap less `k`, and once the gap is used up only the
   parity of what was removed beyond it.
   */
  lemma {:induction false} DrainGap(c: seq<nat>, k: nat)
    requires |c| == 2 && k <= Sum(c)
    ensures Gap(Drain(c, k)) == GapAfter(Gap(c), k)
  {
    if k > 0 {
      DrainGap(c, k - 1);
      DrainGapNext(c, k - 1);
      GapAfterNext(Gap(c), k - 1);
    }
  }

  /** The old gap less `k`, and once it is used up the parity of what was removed beyond it. */
  function GapAfter(gap: nat, k: nat): nat {
    if k <= gap then gap - k else (k - gap) % 2
  }

  lemma GapAfterNext(gap: nat, k: nat)
    ensures GapAfter(gap, k + 1) == if GapAfter(gap, k) == 0 then 1 else GapAfter(gap, k) - 1
  {
  }

  lemma DrainGapNext(c: seq<nat>, k: nat)
    requires |c| == 2 && k < Sum(c)
    ensures Gap(Drain(c, k + 1)) == if Gap(Drain(c, k)) == 0 then 1 else Gap(Drain(c, k)) - 1
  {
    PositiveTop(Drain(c, k));
  }
}
