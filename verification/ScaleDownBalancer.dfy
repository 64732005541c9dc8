/**
 Which machines of a stretched MachineSet should go first: `selectVictims`.

 A machine's site is looked up through its NutanixMachine. Machines of a site are ordered
 newest-first, and victims are drawn one at a time from the site that has most left.
 */
module ScaleDownBalancer {
  import opened Wrappers
  import opened Sorting
  import opened GreedyBalance

  /** Reading the NutanixMachine behind a Machine. */
  datatype Lookup = NotFound | Failed | Found(nativeFd: Option<string>)

  datatype Machine = Machine(name: string, created: int, deleting: bool, infraName: string, lookup: Lookup)

  /** A live machine whose native site is recorded. */
  datatype Known = Known(name: string, created: int, site: string)

  function MachineSite(m: Machine): Result<Option<string>> {
    if m.infraName == "" then Ok(None)
    else match m.lookup
      case NotFound => Ok(None)
      case Failed => Err
      case Found(fd) => if fd == Some("") then Ok(None) else Ok(fd)
  }

  ghost predicate Readable(ms: seq<Machine>) {
    forall i :: 0 <= i < |ms| && !ms[i].deleting ==> MachineSite(ms[i]).Ok?
  }

  function KnownSite(m: Machine): Option<string> {
    if m.deleting || MachineSite(m).Err? then None else MachineSite(m).value
  }

  function AsKnown(m: Machine): Known
    requires KnownSite(m).Some?
  {
    Known(m.name, m.created, KnownSite(m).value)
  }

  function LiveTotal(ms: seq<Machine>): nat {
    if ms == [] then 0 else LiveTotal(ms[..|ms| - 1]) + if ms[|ms| - 1].deleting then 0 else 1
  }

  /** The known machines in listing order. */
  function Knowns(ms: seq<Machine>): (r: seq<Known>) {
    if ms == [] then []
    else
      var last := ms[|ms| - 1];
      Knowns(ms[..|ms| - 1]) + if KnownSite(last).Some? then [AsKnown(last)] else []
  }

  /** Those of one site. */
  function At(ks: seq<Known>, site: string): seq<Known> {
    if ks == [] then []
    else
      var last := ks[|ks| - 1];
      At(ks[..|ks| - 1], site) + if last.site == site then [last] else []
  }

  function SitesOf(ks: seq<Known>): set<string> {
    set k | k in ks :: k.site
  }

  /**
   The comparator of `sortMachinesNewestFirst`. It is applied to machines of one site only, so the
   last comparison never decides; it makes the order total on all values.
   */
  predicate NewerFirst(a: Known, b: Known) {
    a.created > b.created || (a.created == b.created &&
      (NameLess(a.name, b.name) || (a.name == b.name && NameLess(a.site, b.site))))
  }

  lemma NewerFirstIsOrder()
    ensures StrictTotalOrder(NewerFirst)
  {
    NamesAreOrdered();
  }

  // ---------- the specification ----------

  /** The one newest-first listing of some machines. */
  ghost function NewestFirst(ks: seq<Known>): (r: seq<Known>)
    ensures |r| == |ks|
    ensures multiset(r) == multiset(ks)
  {
    Sort(NewerFirst, ks)
  }

  lemma NewestFirstSorted(ks: seq<Known>)
    ensures Sorted(NewerFirst, NewestFirst(ks))
  {
    NewerFirstIsOrder();
    SortSorts(NewerFirst, ks);
  }

  /** The sites in name order, which fixes how ties are broken. */
  ghost function SiteNames(sites: set<string>): (r: seq<string>)
    ensures multiset(r) == multiset(sites)
  {
    if sites == {} then []
    else var s :| s in sites; Insert(NameLess, s, SiteNames(sites - {s}))
  }

  lemma {:induction false} SiteNamesSorted(sites: set<string>)
    ensures Sorted(NameLess, SiteNames(sites)) && Distinct(SiteNames(sites))
    ensures forall s :: s in SiteNames(sites) <==> s in sites
  {
    SiteNamesSort(sites);
    ListingOfSet(SiteNames(sites), sites);
  }

  lemma {:induction false} SiteNamesSort(sites: set<string>)
    ensures Sorted(NameLess, SiteNames(sites))
  {
    if sites != {} {
      NamesAreOrdered();
      var s :| s in sites && SiteNames(sites) == Insert(NameLess, s, SiteNames(sites - {s}));
      SiteNamesSort(sites - {s});
      InsertSorted(NameLess, s, SiteNames(sites - {s}));
    }
  }

  /** Each site's machines, newest first, in site order. */
  ghost function Lists(ks: seq<Known>, names: seq<string>): (r: seq<seq<Known>>)
    ensures |r| == |names|
    ensures forall i :: 0 <= i < |names| ==> r[i] == NewestFirst(At(ks, names[i]))
  {
    seq(|names|, i requires 0 <= i < |names| => NewestFirst(At(ks, names[i])))
  }

  function Sizes(lists: seq<seq<Known>>): (c: seq<nat>)
    ensures |c| == |lists|
  {
    seq(|lists|, i requires 0 <= i < |lists| => |lists[i]|)
  }

  function Excess(c: seq<nat>): (e: int) {
    if |c| < 2 then 0 else Max(c) - Min(c)
  }

  function PendingDeletes(live: nat, replicas: Option<int>): nat {
    if replicas.Some? && replicas.value < live then live - replicas.value else 0
  }

  /** How many victims to draw: the pending deletions, or else the imbalance. */
  function Wanted(c: seq<nat>, live: nat, replicas: Option<int>): int {
    if PendingDeletes(live, replicas) > 0 then PendingDeletes(live, replicas) else Excess(c)
  }

  function Capped(k: int, total: nat): (r: nat) {
    if k <= 0 then 0 else if k > total then total else k
  }

  /** What has been drawn once site `i` is down to `d[i]` machines. */
  function Taken(lists: seq<seq<Known>>, d: seq<nat>): set<Known>
    requires |d| == |lists|
  {
    set i, p | 0 <= i < |lists| && 0 <= p < |lists[i]| - d[i] :: lists[i][p]
  }

  function NamesOf(vs: set<Known>): set<string> {
    set v | v in vs :: v.name
  }

  function Draw(lists: seq<seq<Known>>, k: nat): set<Known>
    requires k <= Sum(Sizes(lists))
  {
    if lists == [] then {} else Taken(lists, Drain(Sizes(lists), k))
  }

  ghost function SiteLists(ms: seq<Machine>): seq<seq<Known>> {
    Lists(Knowns(ms), SiteNames(SitesOf(Knowns(ms))))
  }

  ghost function VictimCount(ms: seq<Machine>, replicas: Option<int>): nat {
    Capped(Wanted(Sizes(SiteLists(ms)), LiveTotal(ms), replicas), |Knowns(ms)|)
  }

  ghost function Victims(ms: seq<Machine>, replicas: Option<int>): set<Known> {
    SizesAddUp(ms);
    Draw(SiteLists(ms), VictimCount(ms, replicas))
  }

  // ---------- lists and totals ----------

  lemma {:induction false} AtMembers(ks: seq<Known>, site: string)
    ensures forall k :: k in At(ks, site) <==> k in ks && k.site == site
  {
    if ks != [] {
      AtMembers(ks[..|ks| - 1], site);
      assert ks == ks[..|ks| - 1] + [ks[|ks| - 1]];
    }
  }

  function SizesAt(ks: seq<Known>, names: seq<string>): (c: seq<nat>)
    ensures |c| == |names|
  {
    seq(|names|, i requires 0 <= i < |names| => |At(ks, names[i])|)
  }

  lemma SizesAtLast(ks: seq<Known>, names: seq<string>, j: nat)
    requires ks != [] && Distinct(names) && j < |names| && names[j] == ks[|ks| - 1].site
    ensures SizesAt(ks, names) == Bump(SizesAt(ks[..|ks| - 1], names), j)
  {
  }

  lemma {:induction false} AtSizes(ks: seq<Known>, names: seq<string>)
    requires Distinct(names) && forall k :: k in ks ==> k.site in names
    ensures Sum(SizesAt(ks, names)) == |ks|
  {
    if ks == [] {
      SumAtMost(SizesAt(ks, names), |names|, 0);
    } else {
      var n := |ks| - 1;
      var j :| 0 <= j < |names| && names[j] == ks[n].site;
      AtSizes(ks[..n], names);
      SizesAtLast(ks, names, j);
    }
  }

  lemma {:induction false} SizesOfLists(ks: seq<Known>, names: seq<string>)
    ensures Sizes(Lists(ks, names)) == SizesAt(ks, names)
  {
  }

  lemma {:induction false} SitesListed(ks: seq<Known>)
    ensures Distinct(SiteNames(SitesOf(ks))) && forall k :: k in ks ==> k.site in SiteNames(SitesOf(ks))
  {
    SiteNamesSorted(SitesOf(ks));
  }

  lemma {:induction false} SizesAddUp(ms: seq<Machine>)
    ensures Sum(Sizes(SiteLists(ms))) == |Knowns(ms)|
  {
    SitesListed(Knowns(ms));
    AtSizes(Knowns(ms), SiteNames(SitesOf(Knowns(ms))));
    SizesOfLists(Knowns(ms), SiteNames(SitesOf(Knowns(ms))));
  }

  // ---------- the methods ----------

  /** `sort.Strings` over the keys of a map, which Go hands out in no particular order. */
  method SortedKeys(bySite: map<string, seq<Known>>) returns (names: seq<string>)
    ensures names == SiteNames(bySite.Keys)
  {
    names := [];
    var left := bySite.Keys;
    while left != {}
      invariant left <= bySite.Keys
      invariant multiset(names) == multiset(bySite.Keys - left)
    {
      var name :| name in left;
      names := names + [name];
      assert bySite.Keys - (left - {name}) == (bySite.Keys - left) + {name};
      left := left - {name};
    }
    assert bySite.Keys - left == bySite.Keys;
    NamesAreOrdered();
    SortSorts(NameLess, names);
    SiteNamesSort(bySite.Keys);
    SortedUnique(NameLess, Sort(NameLess, names), SiteNames(bySite.Keys));
    names := Sort(NameLess, names);
  }

  /** `siteExcess`: the gap between the fullest and the emptiest represented site. */
  method SiteExcess(bySite: map<string, seq<Known>>, names: seq<string>) returns (excess: int)
    requires forall i :: 0 <= i < |names| ==> names[i] in bySite
    ensures excess == Excess(seq(|names|, i requires 0 <= i < |names| => |bySite[names[i]]|))
  {
    if |names| < 2 { return 0; }
    ghost var c: seq<nat> := seq(|names|, i requires 0 <= i < |names| => |bySite[names[i]]|);
    var minCount, maxCount := -1, 0;
    for i := 0 to |names|
      invariant i == 0 ==> minCount == -1 && maxCount == 0
      invariant i > 0 ==> minCount == c[LeastTo(c, i)] && maxCount == c[MostTo(c, i)]
    {
      var n := |bySite[names[i]]|;
      if n > maxCount { maxCount := n; }
      if minCount < 0 || n < minCount { minCount := n; }
    }
    return maxCount - minCount;
  }

  ghost predicate Grouped(bySite: map<string, seq<Known>>, ks: seq<Known>) {
    && bySite.Keys == SitesOf(ks)
    && forall s :: s in bySite ==> bySite[s] == At(ks, s)
  }

  /** Go's append to a map entry that may be absent. */
  function AppendTo(bySite: map<string, seq<Known>>, k: Known): map<string, seq<Known>> {
    bySite[k.site := (if k.site in bySite then bySite[k.site] else []) + [k]]
  }

  lemma GroupedAppend(bySite: map<string, seq<Known>>, ks: seq<Known>, k: Known)
    requires Grouped(bySite, ks)
    ensures Grouped(AppendTo(bySite, k), ks + [k])
  {
    assert (ks + [k])[..|ks|] == ks;
    AtMembers(ks, k.site);
    if At(ks, k.site) != [] { assert At(ks, k.site)[0] in ks; }
    assert SitesOf(ks + [k]) == SitesOf(ks) + {k.site};
    assert AppendTo(bySite, k).Keys == bySite.Keys + {k.site};
  }

  lemma NextMachine(ms: seq<Machine>, i: nat)
    requires i < |ms|
    ensures Knowns(ms[..i + 1]) == Knowns(ms[..i]) + if KnownSite(ms[i]).Some? then [AsKnown(ms[i])] else []
    ensures LiveTotal(ms[..i + 1]) == LiveTotal(ms[..i]) + if ms[i].deleting then 0 else 1
    ensures Readable(ms[..i + 1]) <==> Readable(ms[..i]) && (ms[i].deleting || MachineSite(ms[i]).Ok?)
  {
    assert ms[..i + 1][..i] == ms[..i];
    assert ms[..i + 1] == ms[..i] + [ms[i]];
  }

  /** One pass over the MachineSet's machines; a failed lookup of a live machine ends it. */
  method GroupBySite(ms: seq<Machine>) returns (ok: bool, bySite: map<string, seq<Known>>, live: nat, known: nat)
    ensures ok <==> Readable(ms)
    ensures ok ==> Grouped(bySite, Knowns(ms))
    ensures ok ==> live == LiveTotal(ms) && known == |Knowns(ms)|
  {
    bySite, live, known := map[], 0, 0;
    for i := 0 to |ms|
      invariant Readable(ms[..i])
      invariant Grouped(bySite, Knowns(ms[..i]))
      invariant live == LiveTotal(ms[..i]) && known == |Knowns(ms[..i])|
    {
      NextMachine(ms, i);
      ghost var ks := Knowns(ms[..i]);
      var m := ms[i];
      if m.deleting {
        assert Knowns(ms[..i + 1]) == ks;
        continue;
      }
      live := live + 1;
      var read := MachineSite(m);
      if read.Err? {
        ok := false;
        return;
      }
      if read.value.None? {
        assert Knowns(ms[..i + 1]) == ks;
        continue;
      }
      var k := Known(m.name, m.created, read.value.value);
      GroupedAppend(bySite, ks, k);
      bySite := AppendTo(bySite, k);
      known := known + 1;
    }
    assert ms[..|ms|] == ms;
    ok := true;
  }

  /** The site with most machines left, and how many; -1 when there is no site. */
  method Fullest(remaining: map<string, seq<Known>>, names: seq<string>) returns (pick: nat, best: int)
    requires forall i :: 0 <= i < |names| ==> names[i] in remaining
    requires |names| > 0
    ensures var c: seq<nat> := seq(|names|, i requires 0 <= i < |names| => |remaining[names[i]]|);
            pick == MostIndex(c) && best == c[pick]
  {
    ghost var c: seq<nat> := seq(|names|, i requires 0 <= i < |names| => |remaining[names[i]]|);
    best, pick := -1, 0;
    for i := 0 to |names|
      invariant i == 0 ==> best == -1 && pick == 0
      invariant i > 0 ==> pick == MostTo(c, i) && best == c[pick]
      invariant pick < |names|
    {
      var n := |remaining[names[i]]|;
      if n > best {
        best := n;
        pick := i;
      }
    }
  }

  /** What remains of each site's list after its first machines have been drawn. */
  ghost predicate LeftOver(remaining: map<string, seq<Known>>, names: seq<string>, lists: seq<seq<Known>>,
      d: seq<nat>) {
    && |names| == |lists| == |d|
    && forall i :: 0 <= i < |names| ==>
         d[i] <= |lists[i]| && names[i] in remaining && remaining[names[i]] == lists[i][|lists[i]| - d[i]..]
  }

  lemma TakenStep(lists: seq<seq<Known>>, d: seq<nat>, i: nat)
    requires |d| == |lists| && i < |lists| && 0 < d[i] <= |lists[i]|
    ensures Taken(lists, d[i := d[i] - 1]) == Taken(lists, d) + {lists[i][|lists[i]| - d[i]]}
  {
    var e: seq<nat> := d[i := d[i] - 1];
    var v := lists[i][|lists[i]| - d[i]];
    forall x ensures x in Taken(lists, e) <==> x in Taken(lists, d) + {v} {
      if x in Taken(lists, e) {
        var j, p :| 0 <= j < |lists| && 0 <= p < |lists[j]| - e[j] && lists[j][p] == x;
        assert x == v || p < |lists[j]| - d[j];
      }
      if x in Taken(lists, d) {
        var j, p :| 0 <= j < |lists| && 0 <= p < |lists[j]| - d[j] && lists[j][p] == x;
        assert p < |lists[j]| - e[j];
      }
    }
  }

  lemma DrawStep(remaining: map<string, seq<Known>>, names: seq<string>, lists: seq<seq<Known>>, d: seq<nat>, i: nat)
    requires Distinct(names) && LeftOver(remaining, names, lists, d) && i < |names| && d[i] > 0
    ensures var rest := remaining[names[i]];
            && rest != [] && rest[0] == lists[i][|lists[i]| - d[i]]
            && LeftOver(remaining[names[i] := rest[1..]], names, lists, d[i := d[i] - 1])
            && NamesOf(Taken(lists, d[i := d[i] - 1])) == NamesOf(Taken(lists, d)) + {rest[0].name}
  {
    TakenStep(lists, d, i);
  }

  /** One draw: the first machine left at the fullest site. */
  method DrawOne(remaining: map<string, seq<Known>>, names: seq<string>, ghost lists: seq<seq<Known>>,
      ghost d: seq<nat>)
    returns (rest: map<string, seq<Known>>, victim: string)
    requires Distinct(names) && |names| > 0
    requires LeftOver(remaining, names, lists, d) && d[MostIndex(d)] > 0
    ensures var e: seq<nat> := d[MostIndex(d) := d[MostIndex(d)] - 1];
            && LeftOver(rest, names, lists, e)
            && NamesOf(Taken(lists, e)) == NamesOf(Taken(lists, d)) + {victim}
  {
    var pick, best := Fullest(remaining, names);
    assert d == seq(|names|, i requires 0 <= i < |names| => |remaining[names[i]]|);
    DrawStep(remaining, names, lists, d, pick);
    victim := remaining[names[pick]][0].name;
    rest := remaining[names[pick] := remaining[names[pick]][1..]];
  }

  lemma DrainNext(c: seq<nat>, n: nat)
    requires |c| > 0 && n < Sum(c)
    ensures var d := Drain(c, n);
            d[MostIndex(d)] > 0 && Drain(c, n + 1) == d[MostIndex(d) := d[MostIndex(d)] - 1]
  {
    PositiveTop(Drain(c, n));
  }

  lemma StartOfDraw(bySite: map<string, seq<Known>>, names: seq<string>, lists: seq<seq<Known>>)
    requires |lists| == |names|
    requires forall i :: 0 <= i < |names| ==> names[i] in bySite && bySite[names[i]] == lists[i]
    ensures LeftOver(bySite, names, lists, Sizes(lists))
    ensures NamesOf(Taken(lists, Sizes(lists))) == {}
  {
    assert Taken(lists, Sizes(lists)) == {};
  }

  /** The greedy draw. The bound on `k` makes the source's exit on an empty remainder unreachable. */
  method DrawVictims(bySite: map<string, seq<Known>>, names: seq<string>, k: nat, ghost lists: seq<seq<Known>>)
    returns (victims: set<string>)
    requires Distinct(names) && |names| > 0 && |lists| == |names|
    requires forall i :: 0 <= i < |names| ==> names[i] in bySite && bySite[names[i]] == lists[i]
    requires k <= Sum(Sizes(lists))
    ensures victims == NamesOf(Draw(lists, k))
  {
    ghost var c := Sizes(lists);
    ghost var d := c;
    var remaining := bySite;
    victims := {};
    StartOfDraw(bySite, names, lists);
    for n := 0 to k
      invariant d == Drain(c, n)
      invariant LeftOver(remaining, names, lists, d)
      invariant victims == NamesOf(Taken(lists, d))
    {
      DrainNext(c, n);
      var victim;
      remaining, victim := DrawOne(remaining, names, lists, d);
      victims := victims + {victim};
      d := Drain(c, n + 1);
    }
  }

  method SortMachinesNewestFirst(ks: seq<Known>) returns (r: seq<Known>)
    ensures r == NewestFirst(ks)
  {
    r := Sort(NewerFirst, ks);
  }

  /** Each site's slice sorted in place. */
  method SortEach(bySite: map<string, seq<Known>>, names: seq<string>) returns (sorted: map<string, seq<Known>>)
    requires Distinct(names) && forall i :: 0 <= i < |names| ==> names[i] in bySite
    ensures sorted.Keys == bySite.Keys
    ensures forall i :: 0 <= i < |names| ==> sorted[names[i]] == NewestFirst(bySite[names[i]])
  {
    sorted := bySite;
    for i := 0 to |names|
      invariant sorted.Keys == bySite.Keys
      invariant forall j :: 0 <= j < i ==> sorted[names[j]] == NewestFirst(bySite[names[j]])
      invariant forall j :: i <= j < |names| ==> sorted[names[j]] == bySite[names[j]]
    {
      var list := SortMachinesNewestFirst(sorted[names[i]]);
      sorted := sorted[names[i] := list];
    }
  }

  /** The sorted map holds the lists of the specification, in their order. */
  lemma {:induction false} SortedLists(
      bySite: map<string, seq<Known>>, ks: seq<Known>, names: seq<string>, sorted: map<string, seq<Known>>)
    requires Grouped(bySite, ks) && names == SiteNames(bySite.Keys) && sorted.Keys == bySite.Keys
    requires forall i :: 0 <= i < |names| ==> names[i] in bySite && sorted[names[i]] == NewestFirst(bySite[names[i]])
    ensures var lists := Lists(ks, SiteNames(SitesOf(ks)));
            |lists| == |names| && forall i :: 0 <= i < |names| ==> names[i] in sorted && sorted[names[i]] == lists[i]
  {
  }

  lemma {:induction false} SortedOrder(bySite: map<string, seq<Known>>, names: seq<string>)
    requires names == SiteNames(bySite.Keys)
    ensures Distinct(names) && forall i :: 0 <= i < |names| ==> names[i] in bySite
  {
    SiteNamesSorted(bySite.Keys);
  }

  /** Machine names are unique in a namespace; the method does not rely on it. */
  method SelectVictims(ms: seq<Machine>, replicas: Option<int>) returns (r: Result<set<string>>)
    ensures r == if Readable(ms) then Ok(NamesOf(Victims(ms, replicas))) else Err
  {
    var ok, bySite, live, known := GroupBySite(ms);
    if !ok { return Err; }
    if known == 0 {
      NoneKnown(ms, replicas);
      return Ok({});
    }
    var names := SortedKeys(bySite);
    SortedOrder(bySite, names);
    var sorted := SortEach(bySite, names);
    ghost var lists := SiteLists(ms);
    SortedLists(bySite, Knowns(ms), names, sorted);
    SizesAddUp(ms);
    var victims := DrawWanted(sorted, names, live, known, replicas, lists);
    return Ok(victims);
  }

  /** The second half of `selectVictims`: how many to draw, and the draw. */
  method DrawWanted(bySite: map<string, seq<Known>>, names: seq<string>, live: nat, known: nat, replicas: Option<int>,
                    ghost lists: seq<seq<Known>>)
    returns (victims: set<string>)
    requires Distinct(names) && |lists| == |names|
    requires forall i :: 0 <= i < |names| ==> names[i] in bySite && bySite[names[i]] == lists[i]
    requires 0 < known == Sum(Sizes(lists))
    ensures victims == NamesOf(Draw(lists, Capped(Wanted(Sizes(lists), live, replicas), known)))
  {
    var excess := SiteExcess(bySite, names);
    assert Sizes(lists) == seq(|names|, i requires 0 <= i < |names| => |bySite[names[i]]|);
    var pendingDelete := 0;
    if replicas.Some? && replicas.value < live { pendingDelete := live - replicas.value; }
    var k := excess;
    if pendingDelete > 0 { k := pendingDelete; }
    if k > known { k := known; }
    if k <= 0 {
      NothingTaken(lists);
      return {};
    }
    victims := DrawVictims(bySite, names, k, lists);
  }

  lemma NothingTaken(lists: seq<seq<Known>>)
    ensures NamesOf(Draw(lists, 0)) == {}
  {
    if lists != [] {
      assert Drain(Sizes(lists), 0) == Sizes(lists);
      assert Taken(lists, Sizes(lists)) == {};
    }
  }

  lemma NoneKnown(ms: seq<Machine>, replicas: Option<int>)
    requires Knowns(ms) == []
    ensures NamesOf(Victims(ms, replicas)) == {}
  {
    assert SitesOf(Knowns(ms)) == {};
    assert SiteLists(ms) == [];
  }
}
