/**
 Placement and the scale-down balancer at work on one MachineSet.

 Both controllers look at the same machines, each through its own objects: placement counts
 NutanixMachines against the metro's failure domains in their listed order, the balancer counts
 Machines against the sites it finds, in name order. Scaling up and down in any sequence keeps the
 sites within one machine of each other.
 */
module JointRuns {
  import opened Wrappers
  import opened Sorting
  import opened GreedyBalance
  import P = MetroPlacement
  import R = PlacementRounds
  import B = ScaleDownBalancer
  import V = VictimProperties

  /** A machine of the set with its infrastructure machine. */
  datatype Member = Member(name: string, created: int, infraName: string, nativeFd: Option<string>)

  /** What placement reads of it. */
  function AsNutanixMachine(m: Member): P.NutanixMachine {
    P.NutanixMachine(m.infraName, false, m.nativeFd)
  }

  /** What the balancer reads of it. */
  function AsMachine(m: Member): B.Machine {
    B.Machine(m.name, m.created, false, m.infraName, B.Found(m.nativeFd))
  }

  function NutanixMachines(ms: seq<Member>): (r: seq<P.NutanixMachine>)
    ensures |r| == |ms|
  {
    seq(|ms|, i requires 0 <= i < |ms| => AsNutanixMachine(ms[i]))
  }

  function Machines(ms: seq<Member>): (r: seq<B.Machine>)
    ensures |r| == |ms|
  {
    seq(|ms|, i requires 0 <= i < |ms| => AsMachine(ms[i]))
  }

  /** Names are unique, every machine belongs to the group, and no label names an untracked site. */
  ghost predicate WellFormed(g: R.Group, ms: seq<Member>) {
    && |g.fds| > 0 && Distinct(g.fds) && "" !in g.fds
    && (forall i, j :: 0 <= i < j < |ms| ==> ms[i].name != ms[j].name && ms[i].infraName != ms[j].infraName)
    && (forall i :: 0 <= i < |ms| ==> Tracked(g, ms[i]))
  }

  ghost predicate Tracked(g: R.Group, m: Member) {
    && m.infraName != ""
    && (g.groupKey == "" || P.KeyFor(g.keys, m.infraName) == g.groupKey)
    && (m.nativeFd.Some? ==> m.nativeFd.value in g.fds)
  }

  /** Every machine has its site. */
  ghost predicate Settled(ms: seq<Member>) {
    forall i :: 0 <= i < |ms| ==> ms[i].nativeFd.Some?
  }

  function Sites(g: R.Group, ms: seq<Member>): (c: seq<nat>)
    ensures |c| == |g.fds|
  {
    R.Counts(g, NutanixMachines(ms))
  }

  lemma WellFormedForPlacement(g: R.Group, ms: seq<Member>)
    requires WellFormed(g, ms)
    ensures R.WellFormed(g, NutanixMachines(ms))
  {
  }

  // ---------- the two controllers count alike ----------

  lemma {:induction false} FdIndexOf(fds: seq<string>, n: nat, name: string, i: nat)
    requires Distinct(fds) && n <= |fds| && i < |fds|
    ensures P.FdIndexTo(fds, n, name) == Some(i) <==> i < n && fds[i] == name
  {
    if n > 0 {
      FdIndexOf(fds, n - 1, name, i);
    }
  }

  /** A member is counted at a site by placement exactly when the balancer knows it to be there. */
  lemma SameSite(g: R.Group, m: Member, i: nat)
    requires |g.fds| > 0 && Distinct(g.fds) && "" !in g.fds && Tracked(g, m) && i < |g.fds|
    ensures P.Hit(R.Overview(g), AsNutanixMachine(m), P.AtSite(i)) <==> B.KnownSite(AsMachine(m)) == Some(g.fds[i])
  {
    if m.nativeFd.Some? {
      FdIndexOf(g.fds, |g.fds|, m.nativeFd.value, i);
    }
  }

  lemma {:induction false} SameCount(g: R.Group, ms: seq<Member>, i: nat)
    requires WellFormed(g, ms) && i < |g.fds|
    ensures P.Count(R.Overview(g), NutanixMachines(ms), P.AtSite(i)) == |V.OnSite(V.KnownSet(Machines(ms)), g.fds[i])|
  {
    if ms == [] {
      assert V.OnSite(V.KnownSet(Machines(ms)), g.fds[i]) == {};
    } else {
      SameCount(g, ms[..|ms| - 1], i);
      SameCountLast(g, ms, i);
    }
  }

  lemma SameCountLast(g: R.Group, ms: seq<Member>, i: nat)
    requires ms != [] && WellFormed(g, ms) && i < |g.fds|
    ensures P.Count(R.Overview(g), NutanixMachines(ms), P.AtSite(i))
              - P.Count(R.Overview(g), NutanixMachines(ms[..|ms| - 1]), P.AtSite(i))
         == |V.OnSite(V.KnownSet(Machines(ms)), g.fds[i])| - |V.OnSite(V.KnownSet(Machines(ms[..|ms| - 1])), g.fds[i])|
  {
    var n := |ms| - 1;
    SameSite(g, ms[n], i);
    KnownOnSiteLast(ms, g.fds[i]);
    R.CountSplit(R.Overview(g), NutanixMachines(ms), P.AtSite(i));
    assert NutanixMachines(ms)[..n] == NutanixMachines(ms[..n]);
  }

  lemma KnownOnSiteLast(ms: seq<Member>, site: string)
    requires ms != [] && forall i, j :: 0 <= i < j < |ms| ==> ms[i].name != ms[j].name
    ensures |V.OnSite(V.KnownSet(Machines(ms)), site)| == |V.OnSite(V.KnownSet(Machines(ms[..|ms| - 1])), site)|
              + if B.KnownSite(AsMachine(ms[|ms| - 1])) == Some(site) then 1 else 0
  {
    var n := |ms| - 1;
    var last := AsMachine(ms[n]);
    assert Machines(ms)[..n] == Machines(ms[..n]) && Machines(ms)[n] == last;
    if B.KnownSite(last).Some? {
      NewToOthers(ms);
      V.OnSiteWith(V.KnownSet(Machines(ms[..n])), B.AsKnown(last), site);
    } else {
      assert V.Contribution(last) == {};
      assert V.KnownSet(Machines(ms)) == V.KnownSet(Machines(ms[..n]));
    }
  }

  lemma NewToOthers(ms: seq<Member>)
    requires ms != [] && forall i, j :: 0 <= i < j < |ms| ==> ms[i].name != ms[j].name
    requires B.KnownSite(AsMachine(ms[|ms| - 1])).Some?
    ensures B.AsKnown(AsMachine(ms[|ms| - 1])) !in V.KnownSet(Machines(ms[..|ms| - 1]))
  {
    var others := Machines(ms[..|ms| - 1]);
    var last := B.AsKnown(AsMachine(ms[|ms| - 1]));
    V.KnownSetIsKnowns(others);
    if last in V.KnownSet(others) {
      V.KnownsNamed(others, last);
    }
  }

  lemma SitesArePerSite(g: R.Group, ms: seq<Member>)
    requires WellFormed(g, ms)
    ensures Sites(g, ms) == V.PerSite(V.KnownSet(Machines(ms)), g.fds)
  {
    forall i | 0 <= i < |g.fds| ensures Sites(g, ms)[i] == V.PerSite(V.KnownSet(Machines(ms)), g.fds)[i] {
      SameCount(g, ms, i);
    }
  }

  // ---------- scaling up ----------

  /** The set after new machines have joined and each has been given its site by some schedule of rounds. */
  ghost predicate ScalesUp(g: R.Group, ms: seq<Member>, later: seq<Member>, added: seq<Member>,
      schedule: seq<set<string>>)
    requires |g.fds| > 0
  {
    && WellFormed(g, ms + added)
    && (forall i :: 0 <= i < |added| ==> added[i].nativeFd.None?)
    && R.ValidSchedule(g, NutanixMachines(ms + added), schedule)
    && var placed := R.Run(g, NutanixMachines(ms + added), schedule);
       R.PendingSet(g, placed) == {} && Labelled(ms + added, placed, later)
  }

  /** `later` is `ms` with the labels of `placed`. */
  ghost predicate Labelled(ms: seq<Member>, placed: seq<P.NutanixMachine>, later: seq<Member>) {
    && |later| == |ms| == |placed|
    && forall i :: 0 <= i < |ms| ==> later[i] == ms[i].(nativeFd := placed[i].nativeFd)
  }

  ghost predicate OnlyLabelsDiffer(g: R.Group, a: seq<P.NutanixMachine>, b: seq<P.NutanixMachine>) {
    && |a| == |b|
    && forall i :: 0 <= i < |a| ==>
         b[i].name == a[i].name && b[i].deleting == a[i].deleting &&
         (b[i].nativeFd == a[i].nativeFd || (b[i].nativeFd.Some? && b[i].nativeFd.value in g.fds))
  }

  lemma {:induction false} RunWritesLabelsOnly(g: R.Group, ms: seq<P.NutanixMachine>, schedule: seq<set<string>>)
    requires |g.fds| > 0
    ensures OnlyLabelsDiffer(g, ms, R.Run(g, ms, schedule))
    decreases |schedule|
  {
    if schedule != [] {
      var next := R.Round(g, ms, schedule[0]);
      assert OnlyLabelsDiffer(g, ms, next);
      RunWritesLabelsOnly(g, next, schedule[1..]);
    }
  }

  lemma {:induction false} NothingPending(g: R.Group, ms: seq<P.NutanixMachine>, i: nat)
    requires R.PendingSet(g, ms) == {} && i < |ms|
    ensures !R.IsPending(g, ms[i])
  {
    if R.IsPending(g, ms[i]) {
      R.PendingSetMembers(g, ms, ms[i].name);
      assert false;
    }
  }

  /** The set's own machines keep their labels, and the placed machines are a settled set again. */
  lemma ScaleUpSettles(g: R.Group, ms: seq<Member>, later: seq<Member>, added: seq<Member>, schedule: seq<set<string>>)
    requires |g.fds| > 0 && ScalesUp(g, ms, later, added, schedule)
    ensures WellFormed(g, later) && Settled(later)
    ensures NutanixMachines(later) == R.Run(g, NutanixMachines(ms + added), schedule)
  {
    var all := ms + added;
    var placed := R.Run(g, NutanixMachines(all), schedule);
    RunWritesLabelsOnly(g, NutanixMachines(all), schedule);
    forall i | 0 <= i < |later|
      ensures Tracked(g, later[i]) && later[i].nativeFd.Some? && AsNutanixMachine(later[i]) == placed[i]
    {
      assert Tracked(g, all[i]);
      assert placed[i].name == NutanixMachines(all)[i].name;
      NothingPending(g, placed, i);
    }
  }

  lemma {:induction false} UnlabelledCountNowhere(g: R.Group, ms: seq<Member>, added: seq<Member>, i: nat)
    requires WellFormed(g, ms + added) && i < |g.fds|
    requires forall k :: 0 <= k < |added| ==> added[k].nativeFd.None?
    ensures P.Count(R.Overview(g), NutanixMachines(ms + added), P.AtSite(i))
        == P.Count(R.Overview(g), NutanixMachines(ms), P.AtSite(i))
    decreases |added|
  {
    if added == [] {
      assert ms + added == ms;
    } else {
      var n := |added| - 1;
      var all := NutanixMachines(ms + added);
      assert (ms + added)[..|ms| + n] == ms + added[..n];
      UnlabelledCountNowhere(g, ms, added[..n], i);
      assert all[..|all| - 1] == NutanixMachines(ms + added[..n]);
      assert all[|all| - 1] == AsNutanixMachine(added[n]);
    }
  }

  lemma ScaleUpKeepsBalance(g: R.Group, ms: seq<Member>, later: seq<Member>, added: seq<Member>,
      schedule: seq<set<string>>)
    requires |g.fds| > 0 && ScalesUp(g, ms, later, added, schedule)
    requires WithinOne(Sites(g, ms))
    ensures WithinOne(Sites(g, later))
  {
    var all := NutanixMachines(ms + added);
    WellFormedForPlacement(g, ms + added);
    ScaleUpSettles(g, ms, later, added, schedule);
    R.PlacementConfluent(g, all, schedule);
    forall i | 0 <= i < |g.fds| ensures R.Counts(g, all)[i] == Sites(g, ms)[i] {
      UnlabelledCountNowhere(g, ms, added, i);
    }
    assert R.Counts(g, all) == Sites(g, ms);
    FillKeepsWithinOne(Sites(g, ms), |R.PendingSet(g, all)|);
  }

  // ---------- scaling down ----------

  /** CAPI deletes one machine that the balancer has marked. */
  ghost predicate DeletesMarked(ms: seq<Member>, later: seq<Member>, replicas: int) {
    exists i :: IsMarked(ms, i, replicas) && later == Without(ms, i)
  }

  ghost predicate IsMarked(ms: seq<Member>, i: nat, replicas: int) {
    && i < |ms| && B.KnownSite(AsMachine(ms[i])).Some?
    && B.AsKnown(AsMachine(ms[i])) in B.Victims(Machines(ms), Some(replicas))
  }

  /** A scale-down, one deletion after another in any order, until as many are gone as were pending. */
  ghost predicate ScalesDown(states: seq<seq<Member>>, replicas: int) {
    && states != [] && replicas < |states[0]|
    && |states| - 1 == B.VictimCount(Machines(states[0]), Some(replicas))
    && forall t :: 0 <= t < |states| - 1 ==> DeletesMarked(states[t], states[t + 1], replicas)
  }

  lemma {:induction false} AllLive(ms: seq<Member>)
    ensures B.LiveTotal(Machines(ms)) == |ms|
  {
    if ms != [] {
      AllLive(ms[..|ms| - 1]);
      assert Machines(ms)[..|ms| - 1] == Machines(ms[..|ms| - 1]);
    }
  }

  lemma MachinesWithout(ms: seq<Member>, i: nat)
    requires i < |ms|
    ensures Machines(Without(ms, i)) == Without(Machines(ms), i)
  {
  }

  lemma WithoutOne(g: R.Group, ms: seq<Member>, i: nat)
    requires WellFormed(g, ms) && i < |ms|
    ensures WellFormed(g, Without(ms, i))
    ensures Settled(ms) ==> Settled(Without(ms, i))
  {
  }

  lemma LosesMarked(ms: seq<Member>, i: nat, replicas: int)
    requires IsMarked(ms, i, replicas) && V.NamesDistinct(Machines(ms))
    ensures V.DeletesVictim(Machines(ms), Machines(Without(ms, i)), Some(replicas))
  {
    MachinesWithout(ms, i);
    V.DeletionLosesOne(Machines(ms), i);
  }

  lemma DeletesMarkedDeletesVictim(g: R.Group, ms: seq<Member>, later: seq<Member>, replicas: int)
    requires WellFormed(g, ms) && DeletesMarked(ms, later, replicas)
    ensures WellFormed(g, later) && (Settled(ms) ==> Settled(later))
    ensures V.DeletesVictim(Machines(ms), Machines(later), Some(replicas))
  {
    var i :| IsMarked(ms, i, replicas) && later == Without(ms, i);
    WithoutOne(g, ms, i);
    assert V.NamesDistinct(Machines(ms));
    LosesMarked(ms, i, replicas);
  }

  lemma {:induction false} ScaleDownKeepsWellFormed(g: R.Group, states: seq<seq<Member>>, replicas: int, t: nat)
    requires ScalesDown(states, replicas) && WellFormed(g, states[0]) && Settled(states[0]) && t < |states|
    ensures WellFormed(g, states[t]) && Settled(states[t])
  {
    if t > 0 {
      ScaleDownKeepsWellFormed(g, states, replicas, t - 1);
      assert DeletesMarked(states[t - 1], states[t - 1 + 1], replicas);
      DeletesMarkedDeletesVictim(g, states[t - 1], states[t], replicas);
    }
  }

  function Views(states: seq<seq<Member>>): (r: seq<seq<B.Machine>>)
    ensures |r| == |states|
    ensures forall t :: 0 <= t < |states| ==> r[t] == Machines(states[t])
  {
    seq(|states|, t requires 0 <= t < |states| => Machines(states[t]))
  }

  lemma ScaleDownIsDeletionRun(g: R.Group, states: seq<seq<Member>>, replicas: int)
    requires ScalesDown(states, replicas) && WellFormed(g, states[0]) && Settled(states[0])
    ensures V.DeletionRun(Views(states), Some(replicas))
  {
    forall t | 0 <= t < |states| - 1
      ensures V.DeletesVictim(Views(states)[t], Views(states)[t + 1], Some(replicas))
    {
      ScaleDownKeepsWellFormed(g, states, replicas, t);
      assert DeletesMarked(states[t], states[t + 1], replicas);
      DeletesMarkedDeletesVictim(g, states[t], states[t + 1], replicas);
    }
  }

  /** The survivors are everyone but the balancer's first choice. */
  lemma ScaleDownSurvivors(g: R.Group, states: seq<seq<Member>>, replicas: int)
    requires ScalesDown(states, replicas) && WellFormed(g, states[0]) && Settled(states[0])
    ensures V.KnownSet(Machines(states[|states| - 1]))
         == V.KnownSet(Machines(states[0])) - B.Victims(Machines(states[0]), Some(replicas))
  {
    ScaleDownIsDeletionRun(g, states, replicas);
    AllLive(states[0]);
    V.AnyDeletionOrder(Views(states), Some(replicas));
  }

  lemma NobodyElsewhere(all: set<B.Known>, left: set<B.Known>, names: seq<string>, fds: seq<string>, i: nat)
    requires (forall k :: k in all ==> k.site in names) && left <= all && i < |fds| && fds[i] !in names
    ensures V.PerSite(left, fds)[i] == 0
  {
    assert V.OnSite(left, fds[i]) == {};
  }

  /** A draw drains the metro's counts from the top, although it breaks ties by name. */
  lemma DrawDrainsFromTop(all: set<B.Known>, names: seq<string>, lists: seq<seq<B.Known>>, k: nat, fds: seq<string>)
    requires V.Census(all, names, lists) && |lists| > 0 && k <= Sum(B.Sizes(lists))
    ensures DrainsFromTop(V.PerSite(all, fds), V.PerSite(all - B.Draw(lists, k), fds))
  {
    var left := all - B.Draw(lists, k);
    var c, d := V.PerSite(all, fds), V.PerSite(left, fds);
    V.PerSiteOfAll(all, names, lists);
    V.PerSiteAfterDraw(all, names, lists, k);
    DrainIsDrain(B.Sizes(lists), k);
    V.PerSiteBelow(all, fds, B.Draw(lists, k));
    forall i | 0 <= i < |d| && fds[i] !in names ensures c[i] == 0 == d[i] {
      NobodyElsewhere(all, all, names, fds, i);
      NobodyElsewhere(all, left, names, fds, i);
    }
    forall i, j | 0 <= i < |d| && 0 <= j < |d| && d[i] < c[i] ensures d[j] <= d[i] + 1 {
      if fds[j] in names {
        var p :| 0 <= p < |names| && names[p] == fds[i];
        var q :| 0 <= q < |names| && names[q] == fds[j];
        SamePlace(all, left, names, fds, p, i);
        SamePlace(all, left, names, fds, q, j);
        assert Before(V.PerSite(left, names)[q], p, V.PerSite(left, names)[p] + 1, q);
      }
    }
  }

  lemma SamePlace(all: set<B.Known>, left: set<B.Known>, names: seq<string>, fds: seq<string>, p: nat, i: nat)
    requires p < |names| && i < |fds| && names[p] == fds[i]
    ensures V.PerSite(all, fds)[i] == V.PerSite(all, names)[p]
    ensures V.PerSite(left, fds)[i] == V.PerSite(left, names)[p]
  {
  }

  lemma NothingToDrain(all: set<B.Known>, vs: set<B.Known>, fds: seq<string>)
    requires all == {}
    ensures DrainsFromTop(V.PerSite(all, fds), V.PerSite(all - vs, fds))
  {
    assert all - vs == all;
  }

  lemma VictimsDrainFromTop(ms: seq<B.Machine>, replicas: Option<int>, fds: seq<string>)
    requires V.NamesDistinct(ms)
    ensures DrainsFromTop(V.PerSite(V.KnownSet(ms), fds), V.PerSite(V.KnownSet(ms) - B.Victims(ms, replicas), fds))
  {
    V.ListsAreCensus(ms);
    V.VictimsSize(ms, replicas);
    if V.Names(ms) == [] {
      NothingToDrain(V.KnownSet(ms), B.Victims(ms, replicas), fds);
    } else {
      DrawDrainsFromTop(V.KnownSet(ms), V.Names(ms), B.SiteLists(ms), B.VictimCount(ms, replicas), fds);
    }
  }

  lemma ScaleDownKeepsBalance(g: R.Group, states: seq<seq<Member>>, replicas: int)
    requires ScalesDown(states, replicas) && WellFormed(g, states[0]) && Settled(states[0])
    requires WithinOne(Sites(g, states[0]))
    ensures WithinOne(Sites(g, states[|states| - 1]))
  {
    var first, last := states[0], states[|states| - 1];
    ScaleDownKeepsWellFormed(g, states, replicas, |states| - 1);
    ScaleDownSurvivors(g, states, replicas);
    SitesArePerSite(g, first);
    SitesArePerSite(g, last);
    VictimsDrainFromTop(Machines(first), Some(replicas), g.fds);
    DrainKeepsWithinOne(Sites(g, first), Sites(g, last));
  }

  // ---------- whole histories ----------

  /** One operation on the MachineSet, from its start to its completion. */
  ghost predicate Operation(g: R.Group, ms: seq<Member>, later: seq<Member>)
    requires |g.fds| > 0
  {
    || (exists added, schedule :: ScalesUp(g, ms, later, added, schedule))
    || (exists states, replicas :: ScalesDown(states, replicas) && states[0] == ms && states[|states| - 1] == later)
  }

  /** A well-formed set between operations: every machine has its site, and no two sites differ by more than one. */
  ghost predicate Balanced(g: R.Group, ms: seq<Member>) {
    WellFormed(g, ms) && Settled(ms) && WithinOne(Sites(g, ms))
  }

  lemma ScaleUpBalances(g: R.Group, ms: seq<Member>, later: seq<Member>, added: seq<Member>, schedule: seq<set<string>>)
    requires Balanced(g, ms) && ScalesUp(g, ms, later, added, schedule)
    ensures Balanced(g, later)
  {
    ScaleUpSettles(g, ms, later, added, schedule);
    ScaleUpKeepsBalance(g, ms, later, added, schedule);
  }

  lemma ScaleDownBalances(g: R.Group, states: seq<seq<Member>>, replicas: int)
    requires ScalesDown(states, replicas) && Balanced(g, states[0])
    ensures Balanced(g, states[|states| - 1])
  {
    ScaleDownKeepsWellFormed(g, states, replicas, |states| - 1);
    ScaleDownKeepsBalance(g, states, replicas);
  }

  lemma OperationKeepsBalance(g: R.Group, ms: seq<Member>, later: seq<Member>)
    requires Balanced(g, ms) && Operation(g, ms, later)
    ensures Balanced(g, later)
  {
    if added, schedule :| ScalesUp(g, ms, later, added, schedule) {
      ScaleUpBalances(g, ms, later, added, schedule);
    } else {
      var states, replicas :| ScalesDown(states, replicas) && states[0] == ms && states[|states| - 1] == later;
      ScaleDownBalances(g, states, replicas);
    }
  }

  ghost predicate History(g: R.Group, history: seq<seq<Member>>)
    requires |g.fds| > 0
  {
    forall s :: 0 <= s < |history| - 1 ==> Operation(g, history[s], history[s + 1])
  }

  /**
   The joint invariant: a MachineSet whose sites are within one machine of each other is so after
   every operation, for any number of sites and any history of scaling up and down.
   */
  lemma {:induction false} BalancedForever(g: R.Group, history: seq<seq<Member>>, t: nat)
    requires t < |history| && Balanced(g, history[0]) && History(g, history)
    ensures Balanced(g, history[t])
  {
    if t > 0 {
      BalancedForever(g, history, t - 1);
      assert Operation(g, history[t - 1], history[t - 1 + 1]);
      OperationKeepsBalance(g, history[t - 1], history[t]);
    }
  }
}
