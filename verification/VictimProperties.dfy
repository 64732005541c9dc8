/**
 What makes the balancer's victims the right ones.

 Give every known machine a level: its rank by age among the live machines of its site, the oldest
 at 1. Victims are then the machines on the highest levels, sites in name order within a level. A
 machine's level depends on older machines only, which is why deleting one victim disturbs no
 other choice.
 */
module VictimProperties {
  import opened Wrappers
  import opened Sorting
  import opened Sets
  import opened GreedyBalance
  import opened ScaleDownBalancer

  ghost predicate NamesDistinct(ms: seq<Machine>) {
    forall i, j :: 0 <= i < j < |ms| ==> ms[i].name != ms[j].name
  }

  lemma {:induction false} DistinctSize<T>(s: seq<T>)
    requires Distinct(s)
    ensures |Elements(s)| == |s|
  {
    if s != [] {
      var n := |s| - 1;
      DistinctSize(s[..n]);
      assert Elements(s) == Elements(s[..n]) + {s[n]};
    }
  }

  /** The live machines with a recorded site. */
  function KnownSet(ms: seq<Machine>): set<Known> {
    if ms == [] then {} else KnownSet(ms[..|ms| - 1]) + Contribution(ms[|ms| - 1])
  }

  function Contribution(m: Machine): set<Known> {
    if KnownSite(m).Some? then {AsKnown(m)} else {}
  }

  lemma {:induction false} KnownSetIsKnowns(ms: seq<Machine>)
    ensures KnownSet(ms) == Elements(Knowns(ms))
  {
    if ms != [] {
      KnownSetIsKnowns(ms[..|ms| - 1]);
    }
  }

  lemma {:induction false} KnownsNamed(ms: seq<Machine>, k: Known)
    requires k in Knowns(ms)
    ensures exists i :: 0 <= i < |ms| && ms[i].name == k.name
  {
    var n := |ms| - 1;
    if ms[n].name != k.name {
      KnownsNamed(ms[..n], k);
    }
  }

  lemma {:induction false} KnownsDistinct(ms: seq<Machine>)
    requires NamesDistinct(ms)
    ensures forall i, j :: 0 <= i < j < |Knowns(ms)| ==> Knowns(ms)[i].name != Knowns(ms)[j].name
  {
    if ms != [] {
      var n := |ms| - 1;
      var front := Knowns(ms[..n]);
      KnownsDistinct(ms[..n]);
      forall i | 0 <= i < |front| ensures front[i].name != ms[n].name {
        KnownsNamed(ms[..n], front[i]);
      }
    }
  }

  lemma KnownSetNames(ms: seq<Machine>)
    requires NamesDistinct(ms)
    ensures |KnownSet(ms)| == |Knowns(ms)|
    ensures forall a, b :: a in KnownSet(ms) && b in KnownSet(ms) && a.name == b.name ==> a == b
  {
    KnownsDistinct(ms);
    KnownSetIsKnowns(ms);
    DistinctSize(Knowns(ms));
  }

  // ---------- levels ----------

  /** The machines of `k`'s site that are not newer than `k`, itself among them. */
  function Peers(all: set<Known>, k: Known): set<Known> {
    set x | x in all && x.site == k.site && !NewerFirst(x, k)
  }

  function Level(all: set<Known>, k: Known): nat {
    |Peers(all, k)|
  }

  predicate Outranks(all: set<Known>, v: Known, x: Known) {
    || Level(all, v) > Level(all, x)
    || (Level(all, v) == Level(all, x) && (v.site == x.site || NameLess(v.site, x.site)))
  }

  /** `vs` is the top `k` of `all`. */
  ghost predicate IsSelection(all: set<Known>, k: nat, vs: set<Known>) {
    && vs <= all && |vs| == k
    && forall v, x :: v in vs && x in all - vs ==> Outranks(all, v, x)
  }

  /** Within a site the newer machine is on the higher level. */
  lemma NewerIsHigher(all: set<Known>, a: Known, b: Known)
    requires a in all && b in all && a.site == b.site && NewerFirst(a, b)
    ensures Level(all, a) > Level(all, b)
  {
    NewerFirstIsOrder();
    assert a in Peers(all, a) && a !in Peers(all, b);
    ProperSubsetSize(Peers(all, b), Peers(all, a));
  }

  lemma OutranksAntisymmetric(all: set<Known>, a: Known, b: Known)
    requires a in all && b in all && Outranks(all, a, b) && Outranks(all, b, a)
    ensures a == b
  {
    NamesAreOrdered();
    NewerFirstIsOrder();
    if a != b {
      if NewerFirst(a, b) { NewerIsHigher(all, a, b); } else { NewerIsHigher(all, b, a); }
    }
  }

  lemma SelectionUnique(all: set<Known>, k: nat, vs: set<Known>, ws: set<Known>)
    requires IsSelection(all, k, vs) && IsSelection(all, k, ws)
    ensures vs == ws
  {
    if vs != ws {
      SameSizeSubset(vs, ws);
      SameSizeSubset(ws, vs);
      var v, w :| v in vs - ws && w in ws - vs;
      OutranksAntisymmetric(all, v, w);
    }
  }

  /** Taking one victim away leaves the rest of the selection selected. */
  lemma SelectionShrinks(all: set<Known>, k: nat, vs: set<Known>, gone: Known)
    requires IsSelection(all, k, vs) && gone in vs
    ensures k > 0 && IsSelection(all - {gone}, k - 1, vs - {gone})
  {
    var rest := all - {gone};
    forall v, x | v in vs - {gone} && x in rest - (vs - {gone}) ensures Outranks(rest, v, x) {
      assert Outranks(all, v, x) && Outranks(all, gone, x);
      SurvivorLevel(all, gone, x);
      if gone in Peers(all, v) {
        VictimLevel(all, gone, v);
      } else {
        assert Peers(rest, v) == Peers(all, v);
      }
    }
  }

  /** A machine outranked by the deleted one keeps its level. */
  lemma SurvivorLevel(all: set<Known>, gone: Known, x: Known)
    requires gone in all && x in all && x != gone && Outranks(all, gone, x)
    ensures Level(all - {gone}, x) == Level(all, x)
  {
    if gone in Peers(all, x) {
      NewerFirstIsOrder();
      NewerIsHigher(all, x, gone);
    }
    assert Peers(all - {gone}, x) == Peers(all, x);
  }

  /** A newer machine of the same site slips one level, but not below the deleted one. */
  lemma VictimLevel(all: set<Known>, gone: Known, v: Known)
    requires gone in all && v in all && v != gone && gone in Peers(all, v)
    ensures Level(all - {gone}, v) == Level(all, v) - 1 >= Level(all, gone)
    ensures v.site == gone.site
  {
    NewerFirstIsOrder();
    NewerIsHigher(all, v, gone);
    assert Peers(all - {gone}, v) == Peers(all, v) - {gone};
  }

  // ---------- a draw from sorted site lists ----------

  /** The lists split `all` by site, in site order, each newest first. */
  ghost predicate Census(all: set<Known>, names: seq<string>, lists: seq<seq<Known>>) {
    && |names| == |lists| && Sorted(NameLess, names) && Distinct(names)
    && (forall k :: k in all ==> k.site in names)
    && (forall i :: 0 <= i < |lists| ==> Distinct(lists[i]) && Sorted(NewerFirst, lists[i]))
    && (forall i, k :: 0 <= i < |lists| ==> (k in lists[i] <==> k in all && k.site == names[i]))
  }

  /** In its site's list, a machine's level is its distance from the end. */
  lemma LevelByPosition(all: set<Known>, names: seq<string>, lists: seq<seq<Known>>, i: nat, p: nat)
    requires Census(all, names, lists) && i < |lists| && p < |lists[i]|
    ensures Level(all, lists[i][p]) == |lists[i]| - p
  {
    var list := lists[i];
    var k := list[p];
    NewerFirstIsOrder();
    assert k in list;
    forall x ensures x in Peers(all, k) <==> x in list[p..] {
      if x in list {
        var q :| 0 <= q < |list| && list[q] == x;
        assert q < p ==> NewerFirst(x, k);
      }
    }
    assert Peers(all, k) == Elements(list[p..]);
    DistinctSize(list[p..]);
  }

  lemma FindKnown(all: set<Known>, names: seq<string>, lists: seq<seq<Known>>, k: Known) returns (i: nat, p: nat)
    requires Census(all, names, lists) && k in all
    ensures i < |lists| && p < |lists[i]| && lists[i][p] == k && names[i] == k.site
  {
    i :| 0 <= i < |names| && names[i] == k.site;
    assert k in lists[i];
    p :| 0 <= p < |lists[i]| && lists[i][p] == k;
  }

  /** Nobody is listed twice. */
  lemma ListedOnce(all: set<Known>, names: seq<string>, lists: seq<seq<Known>>, i: nat, p: nat, j: nat, q: nat)
    requires Census(all, names, lists)
    requires i < |lists| && p < |lists[i]| && j < |lists| && q < |lists[j]| && lists[i][p] == lists[j][q]
    ensures i == j && p == q
  {
    assert lists[i][p] in lists[i] && lists[j][q] in lists[j];
  }

  /** A known machine is drawn exactly when its level exceeds what its site keeps. */
  lemma DrawnIffAbove(all: set<Known>, names: seq<string>, lists: seq<seq<Known>>, d: seq<nat>, i: nat, p: nat)
    requires Census(all, names, lists) && |d| == |lists|
    requires i < |lists| && p < |lists[i]| && d[i] <= |lists[i]|
    ensures lists[i][p] in Taken(lists, d) <==> p < |lists[i]| - d[i]
    ensures lists[i][p] in Taken(lists, d) <==> Level(all, lists[i][p]) > d[i]
  {
    LevelByPosition(all, names, lists, i, p);
    if lists[i][p] in Taken(lists, d) {
      var j, q :| 0 <= j < |lists| && 0 <= q < |lists[j]| - d[j] && lists[j][q] == lists[i][p];
      ListedOnce(all, names, lists, i, p, j, q);
    }
  }

  lemma TakenOneMore(all: set<Known>, names: seq<string>, lists: seq<seq<Known>>, d: seq<nat>, i: nat)
    requires Census(all, names, lists) && |d| == |lists| && i < |lists| && 0 < d[i] <= |lists[i]|
    ensures |Taken(lists, d[i := d[i] - 1])| == |Taken(lists, d)| + 1
  {
    TakenStep(lists, d, i);
    DrawnIffAbove(all, names, lists, d, i, |lists[i]| - d[i]);
  }

  /** What the first `k` draws take. */
  function TakenBy(lists: seq<seq<Known>>, k: nat): set<Known>
    requires |lists| > 0 && k <= Sum(Sizes(lists))
  {
    Taken(lists, Drain(Sizes(lists), k))
  }

  lemma {:induction false} TakenSize(all: set<Known>, names: seq<string>, lists: seq<seq<Known>>, k: nat)
    requires Census(all, names, lists) && |lists| > 0 && k <= Sum(Sizes(lists))
    ensures |TakenBy(lists, k)| == k
  {
    if k == 0 {
      TakenNone(lists);
    } else {
      TakenSize(all, names, lists, k - 1);
      TakenNext(all, names, lists, k - 1);
    }
  }

  lemma TakenNone(lists: seq<seq<Known>>)
    requires |lists| > 0
    ensures |TakenBy(lists, 0)| == 0
  {
    assert Taken(lists, Sizes(lists)) == {};
  }

  lemma TakenNext(all: set<Known>, names: seq<string>, lists: seq<seq<Known>>, k: nat)
    requires Census(all, names, lists) && |lists| > 0 && k < Sum(Sizes(lists))
    ensures |TakenBy(lists, k + 1)| == |TakenBy(lists, k)| + 1
  {
    var d := Drain(Sizes(lists), k);
    DrainNext(Sizes(lists), k);
    DrainIsDrain(Sizes(lists), k);
    assert d[MostIndex(d)] <= Sizes(lists)[MostIndex(d)];
    TakenOneMore(all, names, lists, d, MostIndex(d));
  }

  lemma DrawnOutranksKept(all: set<Known>, names: seq<string>, lists: seq<seq<Known>>, d: seq<nat>, v: Known, x: Known)
    requires Census(all, names, lists) && IsDrain(Sizes(lists), d)
    requires v in all && v in Taken(lists, d) && x in all && x !in Taken(lists, d)
    ensures Outranks(all, v, x)
  {
    var i, p := FindKnown(all, names, lists, v);
    var j, q := FindKnown(all, names, lists, x);
    DrawnIffAbove(all, names, lists, d, i, p);
    DrawnIffAbove(all, names, lists, d, j, q);
    assert Before(d[j], i, d[i] + 1, j);
    NamesAreOrdered();
  }

  /** The draw of `k` machines is the selection of that size. */
  lemma DrawIsSelection(all: set<Known>, names: seq<string>, lists: seq<seq<Known>>, k: nat)
    requires Census(all, names, lists) && k <= Sum(Sizes(lists)) == |all|
    ensures IsSelection(all, k, Draw(lists, k))
  {
    if lists == [] {
      assert |all| == 0;
    } else {
      var d := Drain(Sizes(lists), k);
      DrainIsDrain(Sizes(lists), k);
      TakenSize(all, names, lists, k);
      forall v | v in Taken(lists, d) ensures v in all {
        var i, p :| 0 <= i < |lists| && 0 <= p < |lists[i]| - d[i] && lists[i][p] == v;
        assert v in lists[i];
      }
      forall v, x | v in Taken(lists, d) && x in all - Taken(lists, d) ensures Outranks(all, v, x) {
        DrawnOutranksKept(all, names, lists, d, v, x);
      }
    }
  }

  // ---------- how balanced a draw leaves the sites ----------

  function OnSite(s: set<Known>, site: string): set<Known> {
    set x | x in s && x.site == site
  }

  /** How many machines of a set sit on each site. */
  function PerSite(s: set<Known>, names: seq<string>): (c: seq<nat>)
    ensures |c| == |names|
  {
    seq(|names|, i requires 0 <= i < |names| => |OnSite(s, names[i])|)
  }

  lemma OnSiteWith(s: set<Known>, x: Known, site: string)
    requires x !in s
    ensures |OnSite(s + {x}, site)| == |OnSite(s, site)| + if x.site == site then 1 else 0
  {
    assert OnSite(s + {x}, site) == OnSite(s, site) + if x.site == site then {x} else {};
  }

  lemma {:induction false} PerSiteAddsUp(s: set<Known>, names: seq<string>)
    requires Distinct(names) && forall x :: x in s ==> x.site in names
    ensures Sum(PerSite(s, names)) == |s|
  {
    if s == {} {
      forall i | 0 <= i < |names| ensures PerSite(s, names)[i] == 0 { assert OnSite(s, names[i]) == {}; }
      SumAtMost(PerSite(s, names), |names|, 0);
    } else {
      var x :| x in s;
      var j :| 0 <= j < |names| && names[j] == x.site;
      PerSiteAddsUp(s - {x}, names);
      assert s == s - {x} + {x};
      forall i | 0 <= i < |names|
        ensures PerSite(s, names)[i] == PerSite(s - {x}, names)[i] + if i == j then 1 else 0
      {
        OnSiteWith(s - {x}, x, names[i]);
      }
      assert PerSite(s, names) == Bump(PerSite(s - {x}, names), j);
    }
  }

  lemma PerSiteOfAll(all: set<Known>, names: seq<string>, lists: seq<seq<Known>>)
    requires Census(all, names, lists)
    ensures PerSite(all, names) == Sizes(lists)
  {
    forall i | 0 <= i < |names| ensures |OnSite(all, names[i])| == |lists[i]| {
      assert OnSite(all, names[i]) == Elements(lists[i]);
      DistinctSize(lists[i]);
    }
  }

  /** What a draw leaves on a site is what the drained counts say. */
  lemma KeptAt(all: set<Known>, names: seq<string>, lists: seq<seq<Known>>, d: seq<nat>, i: nat)
    requires Census(all, names, lists) && |d| == |lists| && i < |d| && d[i] <= |lists[i]|
    ensures |OnSite(all - Taken(lists, d), names[i])| == d[i]
  {
    var list := lists[i];
    var kept := list[|list| - d[i]..];
    var rest := OnSite(all - Taken(lists, d), names[i]);
    forall p | 0 <= p < |list| ensures list[p] in rest <==> p >= |list| - d[i] {
      assert list[p] in list;
      DrawnIffAbove(all, names, lists, d, i, p);
    }
    forall x ensures x in rest <==> x in kept {
      if x in rest {
        assert x in list;
        var p :| 0 <= p < |list| && list[p] == x;
        assert kept[p - (|list| - d[i])] == x;
      }
      if x in kept {
        var q :| 0 <= q < |kept| && kept[q] == x;
        assert list[q + |list| - d[i]] == x;
      }
    }
    assert rest == Elements(kept);
    DistinctSize(kept);
  }

  /** The sites after a draw hold the drained counts. */
  lemma PerSiteAfterDraw(all: set<Known>, names: seq<string>, lists: seq<seq<Known>>, k: nat)
    requires Census(all, names, lists) && |lists| > 0 && k <= Sum(Sizes(lists))
    ensures PerSite(all - Draw(lists, k), names) == Drain(Sizes(lists), k)
  {
    var d := Drain(Sizes(lists), k);
    DrainIsDrain(Sizes(lists), k);
    forall i | 0 <= i < |d| ensures |OnSite(all - Draw(lists, k), names[i])| == d[i] {
      KeptAt(all, names, lists, d, i);
    }
  }

  lemma PerSiteBelow(all: set<Known>, names: seq<string>, other: set<Known>)
    ensures Below(PerSite(all - other, names), PerSite(all, names))
  {
    forall i | 0 <= i < |names| ensures |OnSite(all - other, names[i])| <= |OnSite(all, names[i])| {
      assert OnSite(all, names[i]) == OnSite(all - other, names[i]) + OnSite(all * other, names[i]);
    }
  }

  ghost predicate AtLeastAsBalanced(a: seq<nat>, b: seq<nat>)
    requires |a| > 0 && |b| > 0
  {
    Max(a) <= Max(b) && Min(b) <= Min(a)
  }

  /** No other removal of `k` machines leaves a lower fullest or a higher emptiest site. */
  lemma DrawOptimal(all: set<Known>, names: seq<string>, lists: seq<seq<Known>>, k: nat, other: set<Known>)
    requires Census(all, names, lists) && |lists| > 0 && k <= Sum(Sizes(lists)) == |all|
    requires other <= all && |other| == k
    ensures AtLeastAsBalanced(PerSite(all - Draw(lists, k), names), PerSite(all - other, names))
  {
    PerSiteAfterDraw(all, names, lists, k);
    OtherRemoval(all, names, lists, k, other);
    DrainIsDrain(Sizes(lists), k);
    DrainOptimal(Sizes(lists), Drain(Sizes(lists), k), PerSite(all - other, names));
  }

  lemma OtherRemoval(all: set<Known>, names: seq<string>, lists: seq<seq<Known>>, k: nat, other: set<Known>)
    requires Census(all, names, lists) && k <= Sum(Sizes(lists)) == |all|
    requires other <= all && |other| == k
    ensures Below(PerSite(all - other, names), Sizes(lists))
    ensures Sum(PerSite(all - other, names)) == Sum(Sizes(lists)) - k
  {
    PerSiteOfAll(all, names, lists);
    PerSiteBelow(all, names, other);
    PerSiteAddsUp(all - other, names);
    assert all == (all - other) + other;
  }

  /** Two sites: the gap a draw of `k` machines leaves. */
  lemma DrawGap(all: set<Known>, names: seq<string>, lists: seq<seq<Known>>, k: nat)
    requires Census(all, names, lists) && |names| == 2 && k <= Sum(Sizes(lists))
    ensures Gap(PerSite(all - Draw(lists, k), names)) == GapAfter(Gap(PerSite(all, names)), k)
  {
    PerSiteAfterDraw(all, names, lists, k);
    PerSiteOfAll(all, names, lists);
    DrainGap(Sizes(lists), k);
  }

  /** For two sites, the imbalance the balancer computes is that gap. */
  lemma ExcessIsGap(all: set<Known>, names: seq<string>, lists: seq<seq<Known>>)
    requires Census(all, names, lists) && |names| == 2
    ensures Excess(Sizes(lists)) == Gap(PerSite(all, names))
  {
    PerSiteOfAll(all, names, lists);
    GapIsSpread(Sizes(lists));
  }

  // ---------- the balancer's victims ----------

  ghost function Names(ms: seq<Machine>): seq<string> {
    SiteNames(SitesOf(Knowns(ms)))
  }

  lemma {:induction false} AtDistinct(ks: seq<Known>, site: string)
    requires forall i, j :: 0 <= i < j < |ks| ==> ks[i].name != ks[j].name
    ensures Distinct(At(ks, site))
  {
    if ks != [] {
      var n := |ks| - 1;
      AtDistinct(ks[..n], site);
      AtMembers(ks[..n], site);
    }
  }

  lemma {:induction false} CountsOnce<T>(s: seq<T>, x: T)
    requires Distinct(s)
    ensures multiset(s)[x] <= 1
  {
    if s != [] {
      var n := |s| - 1;
      assert s == s[..n] + [s[n]];
      CountsOnce(s[..n], x);
      assert s[n] !in s[..n];
    }
  }

  lemma NewestFirstDistinct(ks: seq<Known>)
    requires Distinct(ks)
    ensures Distinct(NewestFirst(ks))
    ensures forall k :: k in NewestFirst(ks) <==> k in ks
  {
    var list := NewestFirst(ks);
    forall k ensures k in list <==> k in ks {
      assert k in list <==> k in multiset(list);
      assert k in ks <==> k in multiset(ks);
    }
    if p, q :| 0 <= p < q < |list| && list[p] == list[q] {
      RepetitionCounts(list, p, q);
      CountsOnce(ks, list[p]);
    }
  }

  lemma ListOfSite(ks: seq<Known>, site: string)
    requires forall i, j :: 0 <= i < j < |ks| ==> ks[i].name != ks[j].name
    ensures Distinct(NewestFirst(At(ks, site)))
    ensures forall k :: k in NewestFirst(At(ks, site)) <==> k in ks && k.site == site
  {
    AtMembers(ks, site);
    AtDistinct(ks, site);
    NewestFirstDistinct(At(ks, site));
  }

  ghost predicate IsListOf(all: set<Known>, list: seq<Known>, site: string) {
    && Distinct(list) && Sorted(NewerFirst, list)
    && forall k :: k in list <==> k in all && k.site == site
  }

  lemma {:induction false} NewestFirstIsList(ks: seq<Known>, site: string)
    requires forall i, j :: 0 <= i < j < |ks| ==> ks[i].name != ks[j].name
    ensures IsListOf(Elements(ks), NewestFirst(At(ks, site)), site)
  {
    ListOfSite(ks, site);
    NewestFirstSorted(At(ks, site));
  }

  lemma {:induction false} ListsMakeCensus(all: set<Known>, names: seq<string>, lists: seq<seq<Known>>)
    requires |names| == |lists| && Sorted(NameLess, names) && Distinct(names)
    requires forall k :: k in all ==> k.site in names
    requires forall i :: 0 <= i < |lists| ==> IsListOf(all, lists[i], names[i])
    ensures Census(all, names, lists)
  {
  }

  lemma {:induction false} ListsSplit(ks: seq<Known>)
    requires forall i, j :: 0 <= i < j < |ks| ==> ks[i].name != ks[j].name
    ensures Census(Elements(ks), SiteNames(SitesOf(ks)), Lists(ks, SiteNames(SitesOf(ks))))
  {
    var names := SiteNames(SitesOf(ks));
    var lists := Lists(ks, names);
    SiteNamesSorted(SitesOf(ks));
    forall i | 0 <= i < |names| ensures IsListOf(Elements(ks), lists[i], names[i]) { NewestFirstIsList(ks, names[i]); }
    ListsMakeCensus(Elements(ks), names, lists);
  }

  /** The method's lists are a census of the known machines. */
  lemma ListsAreCensus(ms: seq<Machine>)
    requires NamesDistinct(ms)
    ensures Census(KnownSet(ms), Names(ms), SiteLists(ms))
    ensures Sum(Sizes(SiteLists(ms))) == |KnownSet(ms)|
  {
    KnownsDistinct(ms);
    KnownSetIsKnowns(ms);
    ListsSplit(Knowns(ms));
    SizesAddUp(ms);
    KnownSetNames(ms);
  }

  /** Victims are the top machines of the MachineSet: this is all the proofs below need to know. */
  lemma {:induction false} VictimsAreSelection(ms: seq<Machine>, replicas: Option<int>)
    requires NamesDistinct(ms)
    ensures IsSelection(KnownSet(ms), VictimCount(ms, replicas), Victims(ms, replicas))
  {
    KnownSetNames(ms);
    ListsSelect(ms, VictimCount(ms, replicas));
  }

  lemma {:induction false} ListsSelect(ms: seq<Machine>, k: nat)
    requires NamesDistinct(ms) && k <= |KnownSet(ms)|
    ensures k <= Sum(Sizes(SiteLists(ms))) && IsSelection(KnownSet(ms), k, Draw(SiteLists(ms), k))
  {
    ListsAreCensus(ms);
    DrawIsSelection(KnownSet(ms), Names(ms), SiteLists(ms), k);
  }

  // ---------- deleting victims one by one ----------

  /** `later` is `ms` after `gone` went away, whatever order the machines are listed in. */
  ghost predicate LostOne(ms: seq<Machine>, later: seq<Machine>, gone: Known) {
    && NamesDistinct(ms) && NamesDistinct(later)
    && gone in KnownSet(ms)
    && KnownSet(later) == KnownSet(ms) - {gone}
    && LiveTotal(later) == LiveTotal(ms) - 1
  }

  lemma CountWhenPending(ms: seq<Machine>, replicas: Option<int>)
    requires PendingDeletes(LiveTotal(ms), replicas) > 0
    ensures VictimCount(ms, replicas) == Capped(PendingDeletes(LiveTotal(ms), replicas), |Knowns(ms)|)
  {
  }

  lemma VictimCountAfter(ms: seq<Machine>, later: seq<Machine>, replicas: Option<int>, gone: Known)
    requires LostOne(ms, later, gone) && PendingDeletes(LiveTotal(ms), replicas) >= 2
    ensures VictimCount(later, replicas) == VictimCount(ms, replicas) - 1
  {
    KnownSetNames(ms);
    KnownSetNames(later);
    CountWhenPending(ms, replicas);
    CountWhenPending(later, replicas);
  }

  /**
   Stability: with at least two deletions pending, deleting any victim and selecting again yields
   the old victims less that one.
   */
  lemma VictimsStable(ms: seq<Machine>, later: seq<Machine>, replicas: Option<int>, gone: Known)
    requires LostOne(ms, later, gone) && PendingDeletes(LiveTotal(ms), replicas) >= 2
    requires gone in Victims(ms, replicas)
    ensures Victims(later, replicas) == Victims(ms, replicas) - {gone}
  {
    var all, vs := KnownSet(ms), Victims(ms, replicas);
    VictimsAreSelection(ms, replicas);
    VictimsAreSelection(later, replicas);
    VictimCountAfter(ms, later, replicas, gone);
    SelectionShrinks(all, |vs|, vs, gone);
    SelectionUnique(KnownSet(later), |vs| - 1, Victims(later, replicas), vs - {gone});
  }

  /** A scale-down in steps: in each step some machine marked at that moment goes away. */
  ghost predicate DeletionRun(states: seq<seq<Machine>>, replicas: Option<int>) {
    && states != [] && NamesDistinct(states[0])
    && forall t :: 0 <= t < |states| - 1 ==> DeletesVictim(states[t], states[t + 1], replicas)
  }

  ghost predicate DeletesVictim(ms: seq<Machine>, later: seq<Machine>, replicas: Option<int>) {
    exists gone :: gone in Victims(ms, replicas) && LostOne(ms, later, gone)
  }

  /** What `t` deletions leave of a first choice `vs` out of `all`: `left` known, `marked` selected. */
  ghost predicate Chosen(all: set<Known>, vs: set<Known>, left: set<Known>, marked: set<Known>, t: nat) {
    && all - vs <= left <= all && |left| == |all| - t
    && marked == vs * left
  }

  lemma ChosenStep(all: set<Known>, vs: set<Known>, left: set<Known>, marked: set<Known>, t: nat, gone: Known)
    requires vs <= all && Chosen(all, vs, left, marked, t) && gone in marked
    ensures Chosen(all, vs, left - {gone}, marked - {gone}, t + 1)
  {
  }

  /** A scale-down from `first` that has reached `now` after `t` deletions. */
  ghost predicate UnderWay(first: seq<Machine>, now: seq<Machine>, replicas: Option<int>, t: nat) {
    && NamesDistinct(now)
    && PendingDeletes(LiveTotal(now), replicas) == PendingDeletes(LiveTotal(first), replicas) - t
    && Chosen(KnownSet(first), Victims(first, replicas), KnownSet(now), Victims(now, replicas), t)
  }

  lemma UnderWayStep(first: seq<Machine>, now: seq<Machine>, later: seq<Machine>, replicas: Option<int>, t: nat,
      gone: Known)
    requires UnderWay(first, now, replicas, t) && PendingDeletes(LiveTotal(first), replicas) > t + 1
    requires Victims(first, replicas) <= KnownSet(first)
    requires gone in Victims(now, replicas) && LostOne(now, later, gone)
    ensures UnderWay(first, later, replicas, t + 1)
  {
    VictimsStable(now, later, replicas, gone);
    ChosenStep(KnownSet(first), Victims(first, replicas), KnownSet(now), Victims(now, replicas), t, gone);
  }

  /** As long as deletions are pending, only victims go and the ones left are exactly those marked. */
  lemma {:induction false} DeletionRunKeepsChoice(states: seq<seq<Machine>>, replicas: Option<int>, t: nat)
    requires DeletionRun(states, replicas) && t < |states|
    requires PendingDeletes(LiveTotal(states[0]), replicas) > t
    ensures UnderWay(states[0], states[t], replicas, t)
  {
    VictimsSize(states[0], replicas);
    if t > 0 {
      DeletionRunKeepsChoice(states, replicas, t - 1);
      assert DeletesVictim(states[t - 1], states[t - 1 + 1], replicas);
      var gone :| gone in Victims(states[t - 1], replicas) && LostOne(states[t - 1], states[t], gone);
      UnderWayStep(states[0], states[t - 1], states[t], replicas, t - 1, gone);
    }
  }

  /**
   Whatever order CAPI deletes the marked machines in, once as many are gone as were chosen at the
   start, the survivors are everyone but that first choice.
   */
  lemma AnyDeletionOrder(states: seq<seq<Machine>>, replicas: Option<int>)
    requires DeletionRun(states, replicas)
    requires PendingDeletes(LiveTotal(states[0]), replicas) > 0
    requires |states| - 1 == VictimCount(states[0], replicas)
    ensures KnownSet(states[|states| - 1]) == KnownSet(states[0]) - Victims(states[0], replicas)
  {
    var n := |states| - 1;
    VictimsAreSelection(states[0], replicas);
    if n == 0 {
      assert Victims(states[0], replicas) == {};
    } else {
      DeletionRunKeepsChoice(states, replicas, n - 1);
      assert DeletesVictim(states[n - 1], states[n - 1 + 1], replicas);
      var gone :| gone in Victims(states[n - 1], replicas) && LostOne(states[n - 1], states[n], gone);
      ChosenStep(KnownSet(states[0]), Victims(states[0], replicas), KnownSet(states[n - 1]),
                 Victims(states[n - 1], replicas), n - 1, gone);
      AllChosenGone(KnownSet(states[0]), Victims(states[0], replicas), KnownSet(states[n]), n);
    }
  }

  lemma AllChosenGone(all: set<Known>, vs: set<Known>, left: set<Known>, n: nat)
    requires vs <= all && |vs| == n && all - vs <= left <= all && |left| == |all| - n
    ensures left == all - vs
  {
    assert all == (all - vs) + vs;
    if left != all - vs { ProperSubsetSize(all - vs, left); }
  }

  /** Both ways a deletion shows up in a listing: a deletion timestamp first, then absence. */
  lemma DeletionLosesOne(ms: seq<Machine>, i: nat)
    requires NamesDistinct(ms) && i < |ms| && KnownSite(ms[i]).Some?
    ensures LostOne(ms, ms[i := ms[i].(deleting := true)], AsKnown(ms[i]))
    ensures LostOne(ms, Without(ms, i), AsKnown(ms[i]))
  {
    KnownsWithout(ms, i);
    KnownsTerminating(ms, i);
    assert NamesDistinct(Without(ms, i));
  }

  lemma {:induction false} KnownSetWithout(ms: seq<Machine>, i: nat)
    requires i < |ms|
    ensures KnownSet(ms) == KnownSet(Without(ms, i)) + Contribution(ms[i])
  {
    var n := |ms| - 1;
    if i == n {
      WithoutLast(ms);
    } else {
      KnownSetWithout(ms[..n], i);
      WithoutPrefix(ms, i);
    }
  }

  lemma {:induction false} LiveTotalWithout(ms: seq<Machine>, i: nat)
    requires i < |ms|
    ensures LiveTotal(ms) == LiveTotal(Without(ms, i)) + if ms[i].deleting then 0 else 1
  {
    var n := |ms| - 1;
    if i == n {
      WithoutLast(ms);
    } else {
      LiveTotalWithout(ms[..n], i);
      WithoutPrefix(ms, i);
    }
  }

  lemma NotAmongOthers(ms: seq<Machine>, i: nat, others: set<Known>)
    requires NamesDistinct(ms) && i < |ms| && others == KnownSet(Without(ms, i))
    ensures Contribution(ms[i]) !! others
  {
    KnownSetIsKnowns(Without(ms, i));
    forall k | k in others ensures k.name != ms[i].name {
      KnownsNamed(Without(ms, i), k);
    }
  }

  lemma {:induction false} KnownsWithout(ms: seq<Machine>, i: nat)
    requires NamesDistinct(ms) && i < |ms|
    ensures KnownSet(Without(ms, i)) == KnownSet(ms) - Contribution(ms[i])
    ensures LiveTotal(ms) == LiveTotal(Without(ms, i)) + if ms[i].deleting then 0 else 1
    ensures Contribution(ms[i]) <= KnownSet(ms)
  {
    KnownSetWithout(ms, i);
    LiveTotalWithout(ms, i);
    NotAmongOthers(ms, i, KnownSet(Without(ms, i)));
  }

  lemma {:induction false} KnownsTerminating(ms: seq<Machine>, i: nat)
    requires i < |ms| && !ms[i].deleting
    ensures var later := ms[i := ms[i].(deleting := true)];
            KnownSet(later) == KnownSet(Without(ms, i)) && LiveTotal(later) == LiveTotal(ms) - 1
  {
    var later := ms[i := ms[i].(deleting := true)];
    var n := |ms| - 1;
    if i == n {
      assert later[..n] == ms[..n];
      WithoutLast(ms);
    } else {
      KnownsTerminating(ms[..n], i);
      assert later[..n] == ms[..n][i := ms[i].(deleting := true)];
      WithoutPrefix(ms, i);
    }
  }

  // ---------- size, order and balance ----------

  /** The machines of a listing that are not being deleted. */
  function Live(ms: seq<Machine>): set<nat> {
    set i: nat | i < |ms| && !ms[i].deleting
  }

  lemma {:induction false} LiveLast(ms: seq<Machine>)
    requires ms != []
    ensures |Live(ms)| == |Live(ms[..|ms| - 1])| + if ms[|ms| - 1].deleting then 0 else 1
  {
    var n := |ms| - 1;
    var more := if ms[n].deleting then {} else {n};
    assert Live(ms) == Live(ms[..n]) + more;
  }

  lemma {:induction false} LiveTotalIs(ms: seq<Machine>)
    ensures LiveTotal(ms) == |Live(ms)|
  {
    if ms == [] {
      assert Live(ms) == {};
    } else {
      LiveTotalIs(ms[..|ms| - 1]);
      LiveLast(ms);
    }
  }

  /** What makes a machine known: it is live, and the NutanixMachine it refers to carries the site's label. */
  ghost predicate Stands(m: Machine, k: Known) {
    && !m.deleting && m.infraName != "" && m.lookup == Found(Some(k.site)) && k.site != ""
    && m.name == k.name && m.created == k.created
  }

  lemma {:induction false} KnownIff(ms: seq<Machine>, k: Known)
    ensures k in KnownSet(ms) <==> exists i :: 0 <= i < |ms| && Stands(ms[i], k)
  {
    if ms != [] {
      KnownIff(ms[..|ms| - 1], k);
    }
  }

  /** The draw takes live known machines only, and as many as are wanted and there are. */
  lemma VictimsSize(ms: seq<Machine>, replicas: Option<int>)
    requires NamesDistinct(ms)
    ensures Victims(ms, replicas) <= KnownSet(ms)
    ensures |Victims(ms, replicas)| == VictimCount(ms, replicas) <= |KnownSet(ms)|
    ensures var pending := PendingDeletes(LiveTotal(ms), replicas);
            pending > 0 ==> VictimCount(ms, replicas) == if pending > |KnownSet(ms)| then |KnownSet(ms)| else pending
  {
    VictimsAreSelection(ms, replicas);
    KnownSetNames(ms);
  }

  function Smaller(a: nat, b: nat): nat {
    if a < b then a else b
  }

  /** The fullest site's machines beyond the emptiest one's; none when all machines are on one site. */
  function Imbalance(all: set<Known>, names: seq<string>): int {
    if |names| < 2 then 0 else Max(PerSite(all, names)) - Min(PerSite(all, names))
  }

  /**
   How many victims there are: of the machines whose site is known, as many as live ones exceed the
   replicas, or if none do as the sites are out of balance.
   */
  lemma {:induction false} VictimsNumber(ms: seq<Machine>, replicas: Option<int>)
    requires NamesDistinct(ms)
    ensures Imbalance(KnownSet(ms), Names(ms)) >= 0
    ensures |Victims(ms, replicas)|
         == if replicas.Some? && replicas.value < |Live(ms)| then Smaller(|Live(ms)| - replicas.value, |KnownSet(ms)|)
            else Smaller(Imbalance(KnownSet(ms), Names(ms)), |KnownSet(ms)|)
  {
    VictimsSize(ms, replicas);
    LiveTotalIs(ms);
    ListsAreCensus(ms);
    KnownSetNames(ms);
    PerSiteOfAll(KnownSet(ms), Names(ms), SiteLists(ms));
    if |Names(ms)| >= 2 { Extremes(Sizes(SiteLists(ms))); }
  }

  /** Each site loses its newest machines first, and of two of one age the one whose name comes first. */
  lemma {:induction false} VictimsNewestFirst(ms: seq<Machine>, replicas: Option<int>, v: Known, x: Known)
    requires NamesDistinct(ms) && v in Victims(ms, replicas) && x in KnownSet(ms) && x.site == v.site
    requires x.created > v.created || (x.created == v.created && NameLess(x.name, v.name))
    ensures x in Victims(ms, replicas)
  {
    VictimsAreSelection(ms, replicas);
    SelectionNewestFirst(KnownSet(ms), VictimCount(ms, replicas), Victims(ms, replicas), v, x);
  }

  lemma SelectionNewestFirst(all: set<Known>, k: nat, vs: set<Known>, v: Known, x: Known)
    requires IsSelection(all, k, vs)
    requires v in vs && x in all && x.site == v.site && NewerFirst(x, v)
    ensures x in vs
  {
    if x !in vs {
      assert Outranks(all, v, x);
      NewerIsHigher(all, x, v);
    }
  }

  /** No other removal of that many machines leaves a lower fullest or a higher emptiest site. */
  lemma VictimsOptimal(ms: seq<Machine>, replicas: Option<int>, other: set<Known>)
    requires NamesDistinct(ms) && Names(ms) != []
    requires other <= KnownSet(ms) && |other| == VictimCount(ms, replicas)
    ensures AtLeastAsBalanced(PerSite(KnownSet(ms) - Victims(ms, replicas), Names(ms)),
                              PerSite(KnownSet(ms) - other, Names(ms)))
  {
    ListsAreCensus(ms);
    VictimsSize(ms, replicas);
    DrawOptimal(KnownSet(ms), Names(ms), SiteLists(ms), VictimCount(ms, replicas), other);
  }

  /** Two represented sites: the gap that the victims leave. */
  lemma {:induction false} RemainingGap(ms: seq<Machine>, replicas: Option<int>)
    requires NamesDistinct(ms) && |Names(ms)| == 2
    ensures Gap(PerSite(KnownSet(ms) - Victims(ms, replicas), Names(ms)))
         == GapAfter(Gap(PerSite(KnownSet(ms), Names(ms))), VictimCount(ms, replicas))
  {
    ListsAreCensus(ms);
    VictimsSize(ms, replicas);
    DrawGap(KnownSet(ms), Names(ms), SiteLists(ms), VictimCount(ms, replicas));
  }
}
