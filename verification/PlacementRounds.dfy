/**
 Placement as a protocol. No lock orders the reconciles of one group; each simulates the same fill.

 A run is a list of rounds: in a round some of the unlabelled machines of the group read one and
 the same listing, and afterwards all their labels are persisted. However the machines are spread
 over rounds, the group ends with the greedy fill of the counts it started from.
 */
module PlacementRounds {
  import opened Wrappers
  import opened Sorting
  import opened Sets
  import opened GreedyBalance
  import opened MetroPlacement

  /** What the reconciles of one group share. */
  datatype Group = Group(fds: seq<string>, groupKey: string, keys: map<string, string>)

  function ViewOf(g: Group, me: string): View {
    View(g.fds, me, g.groupKey, g.keys)
  }

  /** The group as seen from no machine in particular; no Kubernetes object has an empty name. */
  function Overview(g: Group): View {
    ViewOf(g, "")
  }

  ghost predicate WellFormed(g: Group, ms: seq<NutanixMachine>) {
    && |g.fds| > 0 && Distinct(g.fds)
    && (forall i :: 0 <= i < |ms| ==> ms[i].name != "")
    && (forall i, j :: 0 <= i < j < |ms| ==> ms[i].name != ms[j].name)
  }

  predicate IsPending(g: Group, m: NutanixMachine) {
    Hit(Overview(g), m, Pending)
  }

  /** The machines of the group that still await a site. */
  function PendingSet(g: Group, ms: seq<NutanixMachine>): set<string> {
    if ms == [] then {}
    else PendingSet(g, ms[..|ms| - 1]) + if IsPending(g, ms[|ms| - 1]) then {ms[|ms| - 1].name} else {}
  }

  lemma {:induction false} PendingSetMembers(g: Group, ms: seq<NutanixMachine>, x: string)
    ensures x in PendingSet(g, ms) <==> exists i :: 0 <= i < |ms| && IsPending(g, ms[i]) && ms[i].name == x
  {
    if ms != [] {
      PendingSetMembers(g, ms[..|ms| - 1], x);
    }
  }

  function Counts(g: Group, ms: seq<NutanixMachine>): seq<nat> {
    SiteCounts(Overview(g), ms)
  }

  // ---------- one reconcile against the shared view ----------

  lemma {:induction false} CountFromAnyMember(g: Group, ms: seq<NutanixMachine>, me: string, q: Query)
    requires !q.PendingBefore?
    requires forall i :: 0 <= i < |ms| ==> ms[i].name != ""
    requires forall i :: 0 <= i < |ms| && ms[i].name == me ==> Sibling(Overview(g), ms[i])
    ensures Count(ViewOf(g, me), ms, q) == Count(Overview(g), ms, q)
  {
    if ms != [] {
      CountFromAnyMember(g, ms[..|ms| - 1], me, q);
    }
  }

  /** The names of `p` that come before `me`. */
  function Earlier(p: set<string>, me: string): set<string> {
    set x | x in p && NameLess(x, me)
  }

  lemma {:induction false} CountPending(g: Group, ms: seq<NutanixMachine>)
    requires WellFormed(g, ms)
    ensures Count(Overview(g), ms, Pending) == |PendingSet(g, ms)|
  {
    if ms != [] {
      var n := |ms| - 1;
      CountPending(g, ms[..n]);
      PendingSetMembers(g, ms[..n], ms[n].name);
    }
  }

  lemma {:induction false} CountPendingBefore(g: Group, ms: seq<NutanixMachine>, me: string)
    requires WellFormed(g, ms)
    requires forall i :: 0 <= i < |ms| && ms[i].name == me ==> Sibling(Overview(g), ms[i])
    ensures Count(ViewOf(g, me), ms, PendingBefore) == |Earlier(PendingSet(g, ms), me)|
  {
    if ms == [] {
      assert Earlier(PendingSet(g, ms), me) == {};
    } else {
      var n := |ms| - 1;
      CountPendingBefore(g, ms[..n], me);
      PendingSetMembers(g, ms[..n], ms[n].name);
      EarlierLast(g, PendingSet(g, ms[..n]), ms[n], me);
    }
  }

  /** What one more machine adds to those pending before `me`. */
  lemma EarlierLast(g: Group, p: set<string>, m: NutanixMachine, me: string)
    requires m.name !in p && m.name != ""
    requires m.name == me ==> Sibling(Overview(g), m)
    ensures |Earlier(p + (if IsPending(g, m) then {m.name} else {}), me)|
         == |Earlier(p, me)| + if Hit(ViewOf(g, me), m, PendingBefore) then 1 else 0
  {
    if IsPending(g, m) {
      EarlierWith(p, m.name, me);
    } else {
      assert p + {} == p;
    }
  }

  lemma EarlierWith(p: set<string>, x: string, me: string)
    requires x !in p
    ensures |Earlier(p + {x}, me)| == |Earlier(p, me)| + if NameLess(x, me) then 1 else 0
  {
    assert Earlier(p + {x}, me) == Earlier(p, me) + if NameLess(x, me) then {x} else {};
  }

  /** A pending machine takes the slot of its rank by name. */
  lemma PlacementIsRankedSlot(g: Group, ms: seq<NutanixMachine>, me: string)
    requires WellFormed(g, ms) && me in PendingSet(g, ms)
    ensures PlacementIndex(ViewOf(g, me), ms) == Slot(Counts(g, ms), |Earlier(PendingSet(g, ms), me)|)
  {
    PendingSetMembers(g, ms, me);
    CountPendingBefore(g, ms, me);
    forall i | 0 <= i < |g.fds|
      ensures Count(ViewOf(g, me), ms, AtSite(i)) == Count(Overview(g), ms, AtSite(i))
    {
      CountFromAnyMember(g, ms, me, AtSite(i));
    }
    assert SiteCounts(ViewOf(g, me), ms) == Counts(g, ms);
  }

  // ---------- ranks ----------

  lemma RankBelowSize(p: set<string>, x: string)
    requires x in p
    ensures |Earlier(p, x)| < |p|
  {
    NamesAreOrdered();
    assert Earlier(p, x) <= p - {x};
    SubsetSize(Earlier(p, x), p - {x});
  }

  lemma RankInjective(p: set<string>, x: string, y: string)
    requires x in p && y in p && x != y
    ensures |Earlier(p, x)| != |Earlier(p, y)|
  {
    NamesAreOrdered();
    if NameLess(x, y) {
      SubsetSize(Earlier(p, x), Earlier(p, y) - {x});
    } else {
      SubsetSize(Earlier(p, y), Earlier(p, x) - {y});
    }
  }

  /** Distinct values: as many of them as keys. */
  lemma {:induction false} ImageSize(t: set<string>, rank: map<string, nat>)
    requires t <= rank.Keys
    requires forall x, y :: x in t && y in t && x != y ==> rank[x] != rank[y]
    ensures |set x | x in t :: rank[x]| == |t|
  {
    if t == {} {
      assert (set x | x in t :: rank[x]) == {};
    } else {
      var x :| x in t;
      ImageSize(t - {x}, rank);
      assert (set y | y in t :: rank[y]) == (set y | y in t - {x} :: rank[y]) + {rank[x]};
    }
  }

  function Positions(s: seq<nat>, i: nat): set<nat> {
    set r: nat | r < |s| && s[r] == i
  }

  lemma {:induction false} Occurrences(s: seq<nat>, i: nat)
    ensures multiset(s)[i] == |Positions(s, i)|
  {
    if s == [] {
      assert Positions(s, i) == {};
    } else {
      var n := |s| - 1;
      Occurrences(s[..n], i);
      PositionsStep(s[..n], s[n], i);
      assert s == s[..n] + [s[n]];
    }
  }

  lemma PositionsStep(s: seq<nat>, x: nat, i: nat)
    ensures |Positions(s + [x], i)| == |Positions(s, i)| + if x == i then 1 else 0
  {
    assert Positions(s + [x], i) == Positions(s, i) + if x == i then {|s|} else {};
  }

  // ---------- labels persisted ----------

  /** The label a machine ends a round with. */
  function Relabelled(g: Group, m: NutanixMachine, pick: map<string, nat>): NutanixMachine {
    if m.name in pick && pick[m.name] < |g.fds| then m.(nativeFd := Some(g.fds[pick[m.name]])) else m
  }

  function Persist(g: Group, ms: seq<NutanixMachine>, pick: map<string, nat>): (r: seq<NutanixMachine>)
    ensures |r| == |ms|
  {
    seq(|ms|, i requires 0 <= i < |ms| => Relabelled(g, ms[i], pick))
  }

  /** The machines of the listing that `pick` sends to site `i`. */
  function SentTo(ms: seq<NutanixMachine>, pick: map<string, nat>, i: nat): set<string> {
    if ms == [] then {}
    else
      var last := ms[|ms| - 1].name;
      SentTo(ms[..|ms| - 1], pick, i) + if last in pick && pick[last] == i then {last} else {}
  }

  lemma {:induction false} SentToMembers(ms: seq<NutanixMachine>, pick: map<string, nat>, i: nat, x: string)
    ensures x in SentTo(ms, pick, i) ==> x in pick && pick[x] == i
    ensures x in SentTo(ms, pick, i) ==> exists k :: 0 <= k < |ms| && ms[k].name == x
  {
    if ms != [] {
      SentToMembers(ms[..|ms| - 1], pick, i, x);
    }
  }

  ghost predicate Assigns(g: Group, ms: seq<NutanixMachine>, pick: map<string, nat>) {
    && (forall x :: x in pick ==> pick[x] < |g.fds|)
    && (forall i :: 0 <= i < |ms| && ms[i].name in pick ==> IsPending(g, ms[i]))
  }

  lemma {:induction false} FdIndexOfDistinct(fds: seq<string>, n: nat, k: nat)
    requires Distinct(fds) && k < n <= |fds|
    ensures FdIndexTo(fds, n, fds[k]) == Some(k)
  {
    if k < n - 1 {
      FdIndexOfDistinct(fds, n - 1, k);
    }
  }

  /** What persisting a label changes about one machine. */
  lemma RelabelledHits(g: Group, m: NutanixMachine, pick: map<string, nat>, i: nat)
    requires Distinct(g.fds) && m.name != ""
    requires m.name in pick ==> pick[m.name] < |g.fds| && IsPending(g, m)
    ensures var m' := Relabelled(g, m, pick);
            && (Hit(Overview(g), m', AtSite(i))
              <==> Hit(Overview(g), m, AtSite(i)) || (m.name in pick && pick[m.name] == i))
            && (Hit(Overview(g), m', Placed) <==> Hit(Overview(g), m, Placed) || m.name in pick)
            && (IsPending(g, m') <==> IsPending(g, m) && m.name !in pick)
            && (m.name in pick ==> !Hit(Overview(g), m, AtSite(i)) && !Hit(Overview(g), m, Placed))
            && m'.name == m.name
  {
    if m.name in pick {
      FdIndexOfDistinct(g.fds, |g.fds|, pick[m.name]);
    }
  }

  lemma SentToLast(ms: seq<NutanixMachine>, pick: map<string, nat>, i: nat)
    requires ms != [] && forall k :: 0 <= k < |ms| - 1 ==> ms[k].name != ms[|ms| - 1].name
    ensures |SentTo(ms, pick, i)| == |SentTo(ms[..|ms| - 1], pick, i)|
              + var last := ms[|ms| - 1].name; if last in pick && pick[last] == i then 1 else 0
  {
    SentToMembers(ms[..|ms| - 1], pick, i, ms[|ms| - 1].name);
  }

  lemma PersistLast(g: Group, ms: seq<NutanixMachine>, pick: map<string, nat>)
    requires ms != []
    ensures Persist(g, ms, pick)[..|ms| - 1] == Persist(g, ms[..|ms| - 1], pick)
    ensures Persist(g, ms, pick)[|ms| - 1] == Relabelled(g, ms[|ms| - 1], pick)
  {
  }

  lemma {:induction false} PersistCounts(g: Group, ms: seq<NutanixMachine>, pick: map<string, nat>, i: nat)
    requires WellFormed(g, ms) && Assigns(g, ms, pick)
    ensures Count(Overview(g), Persist(g, ms, pick), AtSite(i))
        == Count(Overview(g), ms, AtSite(i)) + |SentTo(ms, pick, i)|
  {
    if ms != [] {
      FrontAssigns(g, ms, pick);
      PersistCounts(g, ms[..|ms| - 1], pick, i);
      SentToLast(ms, pick, i);
      PersistCountsLast(g, ms, pick, i);
    }
  }

  lemma FrontAssigns(g: Group, ms: seq<NutanixMachine>, pick: map<string, nat>)
    requires ms != [] && WellFormed(g, ms) && Assigns(g, ms, pick)
    ensures WellFormed(g, ms[..|ms| - 1]) && Assigns(g, ms[..|ms| - 1], pick)
  {
  }

  lemma {:induction false} PersistCountsLast(g: Group, ms: seq<NutanixMachine>, pick: map<string, nat>, i: nat)
    requires ms != [] && Distinct(g.fds)
    requires var m := ms[|ms| - 1];
             m.name != "" && (m.name in pick ==> pick[m.name] < |g.fds| && IsPending(g, m))
    ensures Count(Overview(g), Persist(g, ms, pick), AtSite(i))
              - Count(Overview(g), Persist(g, ms[..|ms| - 1], pick), AtSite(i))
         == Count(Overview(g), ms, AtSite(i)) - Count(Overview(g), ms[..|ms| - 1], AtSite(i))
              + if ms[|ms| - 1].name in pick && pick[ms[|ms| - 1].name] == i then 1 else 0
  {
    PersistLast(g, ms, pick);
    RelabelledHits(g, ms[|ms| - 1], pick, i);
    CountSplit(Overview(g), ms, AtSite(i));
    CountSplit(Overview(g), Persist(g, ms, pick), AtSite(i));
  }

  lemma CountSplit(v: View, ms: seq<NutanixMachine>, q: Query)
    requires ms != []
    ensures Count(v, ms, q) == Count(v, ms[..|ms| - 1], q) + if Hit(v, ms[|ms| - 1], q) then 1 else 0
  {
  }

  /** Persisting labels turns pending machines into placed ones, one for one. */
  lemma {:induction false} PersistConserves(g: Group, ms: seq<NutanixMachine>, pick: map<string, nat>)
    requires WellFormed(g, ms) && Assigns(g, ms, pick)
    ensures Count(Overview(g), Persist(g, ms, pick), Placed) + Count(Overview(g), Persist(g, ms, pick), Pending)
         == Count(Overview(g), ms, Placed) + Count(Overview(g), ms, Pending)
  {
    if ms != [] {
      var n := |ms| - 1;
      PersistConserves(g, ms[..n], pick);
      PersistLast(g, ms, pick);
      RelabelledHits(g, ms[n], pick, 0);
    }
  }

  lemma PersistPending(g: Group, ms: seq<NutanixMachine>, pick: map<string, nat>)
    requires WellFormed(g, ms) && Assigns(g, ms, pick)
    ensures PendingSet(g, Persist(g, ms, pick)) == PendingSet(g, ms) - pick.Keys
  {
    var after := Persist(g, ms, pick);
    forall i | 0 <= i < |ms|
      ensures IsPending(g, after[i]) <==> IsPending(g, ms[i]) && ms[i].name !in pick
      ensures after[i].name == ms[i].name
    {
      RelabelledHits(g, ms[i], pick, 0);
    }
    forall x ensures x in PendingSet(g, after) <==> x in PendingSet(g, ms) - pick.Keys {
      PendingSetMembers(g, after, x);
      PendingSetMembers(g, ms, x);
    }
  }

  /** The totals after labels are persisted: what the sites gained, the pending set lost. */
  lemma PersistTotals(g: Group, ms: seq<NutanixMachine>, pick: map<string, nat>)
    requires WellFormed(g, ms) && Assigns(g, ms, pick)
    ensures Sum(Counts(g, Persist(g, ms, pick))) + |PendingSet(g, Persist(g, ms, pick))|
         == Sum(Counts(g, ms)) + |PendingSet(g, ms)|
  {
    var after := Persist(g, ms, pick);
    PersistConserves(g, ms, pick);
    PersistKeepsWellFormed(g, ms, pick);
    CountPending(g, ms);
    CountPending(g, after);
    CountsAddUp(Overview(g), ms);
    CountsAddUp(Overview(g), after);
  }

  lemma PersistKeepsWellFormed(g: Group, ms: seq<NutanixMachine>, pick: map<string, nat>)
    requires WellFormed(g, ms)
    ensures WellFormed(g, Persist(g, ms, pick))
  {
  }

  /** Every placed machine is counted at exactly one site. */
  lemma {:induction false} CountsAddUp(v: View, ms: seq<NutanixMachine>)
    ensures Sum(SiteCounts(v, ms)) == Count(v, ms, Placed)
  {
    if ms == [] {
      SumAtMost(SiteCounts(v, ms), |v.fds|, 0);
    } else {
      var last := ms[|ms| - 1];
      var before := SiteCounts(v, ms[..|ms| - 1]);
      CountsAddUp(v, ms[..|ms| - 1]);
      if Hit(v, last, Placed) {
        assert SiteCounts(v, ms) == Bump(before, SiteOf(v.fds, last).value);
      } else {
        assert SiteCounts(v, ms) == before;
      }
    }
  }

  // ---------- a round ----------

  /** The sites a set of reconciles computes from one listing. */
  function Decisions(g: Group, ms: seq<NutanixMachine>, who: set<string>): map<string, nat>
    requires |g.fds| > 0
  {
    map x | x in who :: PlacementIndex(ViewOf(g, x), ms)
  }

  function Round(g: Group, ms: seq<NutanixMachine>, who: set<string>): seq<NutanixMachine>
    requires |g.fds| > 0
  {
    Persist(g, ms, Decisions(g, ms, who))
  }

  lemma {:induction false} DecisionsAssign(g: Group, ms: seq<NutanixMachine>, who: set<string>)
    requires WellFormed(g, ms) && who <= PendingSet(g, ms)
    ensures Assigns(g, ms, Decisions(g, ms, who))
  {
    forall i | 0 <= i < |ms| && ms[i].name in who ensures IsPending(g, ms[i]) {
      PendingSetMembers(g, ms, ms[i].name);
    }
  }

  /** No site receives more machines in a round than the whole fill would send there. */
  lemma RoundWithinFill(g: Group, ms: seq<NutanixMachine>, who: set<string>, i: nat)
    requires WellFormed(g, ms) && who <= PendingSet(g, ms) && i < |g.fds|
    ensures Counts(g, Round(g, ms, who))[i] <= Fill(Counts(g, ms), |PendingSet(g, ms)|)[i]
  {
    var c, p, pick := Counts(g, ms), PendingSet(g, ms), Decisions(g, ms, who);
    DecisionsAssign(g, ms, who);
    PersistCounts(g, ms, pick, i);
    FillColumn(c, |p|, i);
    Occurrences(Slots(c, |p|), i);

    var sent := SentTo(ms, pick, i);
    var rank: map<string, nat> := map x | x in p :: |Earlier(p, x)|;
    forall x | x in sent ensures x in who && pick[x] == i { SentToMembers(ms, pick, i, x); }
    forall x, y | x in sent && y in sent && x != y ensures rank[x] != rank[y] { RankInjective(p, x, y); }
    ImageSize(sent, rank);
    var ranks := set x | x in sent :: rank[x];
    var hits := Positions(Slots(c, |p|), i);
    forall x | x in sent ensures rank[x] in hits {
      RankBelowSize(p, x);
      PlacementIsRankedSlot(g, ms, x);
      SlotsAt(c, |p|, rank[x]);
    }
    SubsetSize(ranks, hits);
  }

  /** A round stays below the whole fill and loses no machine. */
  lemma RoundBounds(g: Group, ms: seq<NutanixMachine>, who: set<string>)
    requires WellFormed(g, ms) && who <= PendingSet(g, ms)
    ensures WellFormed(g, Round(g, ms, who))
    ensures Below(Counts(g, ms), Counts(g, Round(g, ms, who)))
    ensures Below(Counts(g, Round(g, ms, who)), Fill(Counts(g, ms), |PendingSet(g, ms)|))
    ensures Sum(Counts(g, Round(g, ms, who))) + |PendingSet(g, Round(g, ms, who))|
        == Sum(Counts(g, ms)) + |PendingSet(g, ms)|
  {
    var pick := Decisions(g, ms, who);
    DecisionsAssign(g, ms, who);
    PersistKeepsWellFormed(g, ms, pick);
    PersistTotals(g, ms, pick);
    forall i | 0 <= i < |g.fds|
      ensures Counts(g, ms)[i] <= Counts(g, Round(g, ms, who))[i] <= Fill(Counts(g, ms), |PendingSet(g, ms)|)[i]
    {
      PersistCounts(g, ms, pick, i);
      RoundWithinFill(g, ms, who, i);
    }
  }

  /** One round leaves the group with the same greedy fill still to come. */
  lemma RoundKeepsTarget(g: Group, ms: seq<NutanixMachine>, who: set<string>)
    requires WellFormed(g, ms) && who <= PendingSet(g, ms)
    ensures Fill(Counts(g, Round(g, ms, who)), |PendingSet(g, Round(g, ms, who))|)
         == Fill(Counts(g, ms), |PendingSet(g, ms)|)
  {
    RoundBounds(g, ms, who);
    FillAbsorbs(Counts(g, ms), |PendingSet(g, ms)|, Counts(g, Round(g, ms, who)), |PendingSet(g, Round(g, ms, who))|);
  }

  // ---------- runs ----------

  ghost predicate ValidSchedule(g: Group, ms: seq<NutanixMachine>, schedule: seq<set<string>>)
    requires |g.fds| > 0
    decreases |schedule|
  {
    schedule == [] || (schedule[0] <= PendingSet(g, ms) && ValidSchedule(g, Round(g, ms, schedule[0]), schedule[1..]))
  }

  function Run(g: Group, ms: seq<NutanixMachine>, schedule: seq<set<string>>): seq<NutanixMachine>
    requires |g.fds| > 0
    decreases |schedule|
  {
    if schedule == [] then ms else Run(g, Round(g, ms, schedule[0]), schedule[1..])
  }

  /** Every schedule, finished or not, is heading for the same counts. */
  lemma {:induction false} RunKeepsTarget(g: Group, ms: seq<NutanixMachine>, schedule: seq<set<string>>)
    requires WellFormed(g, ms) && ValidSchedule(g, ms, schedule)
    ensures WellFormed(g, Run(g, ms, schedule))
    ensures Fill(Counts(g, Run(g, ms, schedule)), |PendingSet(g, Run(g, ms, schedule))|)
         == Fill(Counts(g, ms), |PendingSet(g, ms)|)
    decreases |schedule|
  {
    if schedule != [] {
      RoundKeepsTarget(g, ms, schedule[0]);
      PersistKeepsWellFormed(g, ms, Decisions(g, ms, schedule[0]));
      RunKeepsTarget(g, Round(g, ms, schedule[0]), schedule[1..]);
    }
  }

  /**
   Confluence: whatever the order and grouping of the reconciles, once every machine is placed the
   sites hold the greedy fill of the starting counts by the number of pending machines.
   */
  lemma PlacementConfluent(g: Group, ms: seq<NutanixMachine>, schedule: seq<set<string>>)
    requires WellFormed(g, ms) && ValidSchedule(g, ms, schedule)
    requires PendingSet(g, Run(g, ms, schedule)) == {}
    ensures Counts(g, Run(g, ms, schedule)) == Fill(Counts(g, ms), |PendingSet(g, ms)|)
  {
    RunKeepsTarget(g, ms, schedule);
  }

  /** No assignment of the same machines leaves a fuller emptiest site or an emptier fullest one. */
  lemma PlacementOptimal(g: Group, ms: seq<NutanixMachine>, schedule: seq<set<string>>, other: map<string, nat>)
    requires WellFormed(g, ms) && ValidSchedule(g, ms, schedule)
    requires PendingSet(g, Run(g, ms, schedule)) == {}
    requires Assigns(g, ms, other) && other.Keys == PendingSet(g, ms)
    ensures var done, alt := Counts(g, Run(g, ms, schedule)), Counts(g, Persist(g, ms, other));
            Min(alt) <= Min(done) && Max(done) <= Max(alt)
  {
    var c, p, alt := Counts(g, ms), PendingSet(g, ms), Persist(g, ms, other);
    PlacementConfluent(g, ms, schedule);
    FillIsFill(c, |p|);
    forall i | 0 <= i < |c| ensures c[i] <= Counts(g, alt)[i] {
      PersistCounts(g, ms, other, i);
    }
    PersistTotals(g, ms, other);
    PersistPending(g, ms, other);
    FillOptimal(c, Fill(c, |p|), Counts(g, alt));
  }

  /** Uneven counts heal exactly when the pending machines cover the deficit. */
  lemma PlacementHealsIff(g: Group, ms: seq<NutanixMachine>, schedule: seq<set<string>>)
    requires WellFormed(g, ms) && ValidSchedule(g, ms, schedule)
    requires PendingSet(g, Run(g, ms, schedule)) == {}
    ensures WithinOne(Counts(g, Run(g, ms, schedule))) <==> |PendingSet(g, ms)| >= Deficit(Counts(g, ms))
  {
    PlacementConfluent(g, ms, schedule);
    FillHealsIff(Counts(g, ms), |PendingSet(g, ms)|);
  }

  // ---------- machines that join meanwhile ----------

  /** A round, or unlabelled machines joining the group. */
  datatype Step = Decides(who: set<string>) | Joins(newcomers: seq<NutanixMachine>)

  ghost predicate ValidStep(g: Group, ms: seq<NutanixMachine>, s: Step) {
    match s
    case Decides(who) => who <= PendingSet(g, ms)
    case Joins(ns) => WellFormed(g, ms + ns) && forall i :: 0 <= i < |ns| ==> IsPending(g, ns[i])
  }

  function AfterStep(g: Group, ms: seq<NutanixMachine>, s: Step): seq<NutanixMachine>
    requires |g.fds| > 0
  {
    match s
    case Decides(who) => Round(g, ms, who)
    case Joins(ns) => ms + ns
  }

  ghost predicate StepsTo(g: Group, ms: seq<NutanixMachine>, s: Step, later: seq<NutanixMachine>) {
    |g.fds| > 0 && ValidStep(g, ms, s) && later == AfterStep(g, ms, s)
  }

  ghost predicate StepAt(g: Group, states: seq<seq<NutanixMachine>>, steps: seq<Step>, t: nat) {
    t < |steps| < |states| && StepsTo(g, states[t], steps[t], states[t + 1])
  }

  /** A run in which machines may join between rounds. */
  ghost predicate OpenRun(g: Group, states: seq<seq<NutanixMachine>>, steps: seq<Step>) {
    && |states| == |steps| + 1 && WellFormed(g, states[0])
    && forall t :: 0 <= t < |steps| ==> StepAt(g, states, steps, t)
  }

  function Newcomers(s: Step): nat {
    if s.Joins? then |s.newcomers| else 0
  }

  /** How many machines join in the first `t` steps. */
  function Joined(steps: seq<Step>, t: nat): nat
    requires t <= |steps|
  {
    if t == 0 then 0 else Joined(steps, t - 1) + Newcomers(steps[t - 1])
  }

  lemma {:induction false} NewcomersCount(g: Group, ms: seq<NutanixMachine>, ns: seq<NutanixMachine>, q: Query)
    requires q.AtSite? || q.Pending?
    requires forall i :: 0 <= i < |ns| ==> IsPending(g, ns[i])
    ensures Count(Overview(g), ms + ns, q) == Count(Overview(g), ms, q) + if q.Pending? then |ns| else 0
  {
    if ns == [] {
      assert ms + ns == ms;
    } else {
      var n := |ns| - 1;
      NewcomersCount(g, ms, ns[..n], q);
      assert (ms + ns)[..|ms| + n] == ms + ns[..n];
      CountSplit(Overview(g), ms + ns, q);
    }
  }

  /** Joining changes no site's count, and adds to the pending machines. */
  lemma {:induction false} JoiningCounts(g: Group, ms: seq<NutanixMachine>, ns: seq<NutanixMachine>)
    requires WellFormed(g, ms) && ValidStep(g, ms, Joins(ns))
    ensures Counts(g, ms + ns) == Counts(g, ms)
    ensures |PendingSet(g, ms + ns)| == |PendingSet(g, ms)| + |ns|
  {
    forall i | 0 <= i < |g.fds| ensures Counts(g, ms + ns)[i] == Counts(g, ms)[i] {
      NewcomersCount(g, ms, ns, AtSite(i));
    }
    NewcomersCount(g, ms, ns, Pending);
    CountPending(g, ms);
    CountPending(g, ms + ns);
  }

  /** The group is on its way to `f`, with `rest` machines still to join. */
  ghost predicate BoundFor(g: Group, ms: seq<NutanixMachine>, f: seq<nat>, rest: nat) {
    && WellFormed(g, ms) && IsFill(Counts(g, ms), f)
    && Sum(f) == Sum(Counts(g, ms)) + |PendingSet(g, ms)| + rest
  }

  lemma RoundStaysBound(g: Group, ms: seq<NutanixMachine>, who: set<string>, f: seq<nat>, rest: nat)
    requires BoundFor(g, ms, f, rest) && who <= PendingSet(g, ms)
    ensures BoundFor(g, Round(g, ms, who), f, rest)
  {
    RoundBounds(g, ms, who);
    StillFill(Counts(g, ms), |PendingSet(g, ms)|, Counts(g, Round(g, ms, who)), f);
  }

  lemma StepStaysBound(g: Group, ms: seq<NutanixMachine>, s: Step, later: seq<NutanixMachine>, f: seq<nat>, rest: nat)
    requires BoundFor(g, ms, f, Newcomers(s) + rest) && StepsTo(g, ms, s, later)
    ensures BoundFor(g, later, f, rest)
  {
    match s
    case Decides(who) => RoundStaysBound(g, ms, who, f, rest);
    case Joins(ns) => JoiningCounts(g, ms, ns);
  }

  lemma {:induction false} JoinedGrows(steps: seq<Step>, t: nat, u: nat)
    requires t <= u <= |steps|
    ensures Joined(steps, t) <= Joined(steps, u)
  {
    if t < u {
      JoinedGrows(steps, t, u - 1);
    }
  }

  /** How many machines have still to join after `t` steps. */
  function ToJoin(steps: seq<Step>, t: nat): nat
    requires t <= |steps|
  {
    JoinedGrows(steps, t, |steps|);
    Joined(steps, |steps|) - Joined(steps, t)
  }

  lemma {:induction false} RunStaysBound(g: Group, states: seq<seq<NutanixMachine>>, steps: seq<Step>, t: nat,
      f: seq<nat>)
    requires OpenRun(g, states, steps) && t <= |steps| && BoundFor(g, states[0], f, ToJoin(steps, 0))
    ensures BoundFor(g, states[t], f, ToJoin(steps, t))
  {
    if t > 0 {
      RunStaysBound(g, states, steps, t - 1, f);
      assert StepAt(g, states, steps, t - 1);
      StepStaysBound(g, states[t - 1], steps[t - 1], states[t], f, ToJoin(steps, t));
    }
  }

  lemma BoundAtStart(g: Group, ms: seq<NutanixMachine>, rest: nat) returns (f: seq<nat>)
    requires WellFormed(g, ms)
    ensures f == Fill(Counts(g, ms), |PendingSet(g, ms)| + rest)
    ensures BoundFor(g, ms, f, rest)
  {
    f := Fill(Counts(g, ms), |PendingSet(g, ms)| + rest);
    FillIsFill(Counts(g, ms), |PendingSet(g, ms)| + rest);
  }

  lemma BoundAtEnd(g: Group, ms: seq<NutanixMachine>, f: seq<nat>)
    requires BoundFor(g, ms, f, 0) && PendingSet(g, ms) == {}
    ensures Counts(g, ms) == f
  {
    SumMonotone(Counts(g, ms), f);
  }

  lemma RunArrives(g: Group, states: seq<seq<NutanixMachine>>, steps: seq<Step>, f: seq<nat>)
    requires OpenRun(g, states, steps) && PendingSet(g, states[|steps|]) == {}
    requires BoundFor(g, states[0], f, Joined(steps, |steps|))
    ensures Counts(g, states[|steps|]) == f
  {
    RunStaysBound(g, states, steps, |steps|, f);
    BoundAtEnd(g, states[|steps|], f);
  }

  /**
   Confluence with arrivals: machines may join between rounds, in any number and at any time; once
   all are placed, the sites hold the greedy fill by those pending at the start and those that joined.
   */
  lemma {:induction false} ArrivalsConfluent(g: Group, states: seq<seq<NutanixMachine>>, steps: seq<Step>)
    requires OpenRun(g, states, steps) && PendingSet(g, states[|steps|]) == {}
    ensures Counts(g, states[|steps|])
        == Fill(Counts(g, states[0]), |PendingSet(g, states[0])| + Joined(steps, |steps|))
  {
    var f := BoundAtStart(g, states[0], Joined(steps, |steps|));
    RunArrives(g, states, steps, f);
  }
}
