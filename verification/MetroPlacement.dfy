/**
 Where a new machine of a stretched metro goes: `computeMetroPlacementIndex` and the group labels
 that scope it.

 The listings are what one reconcile reads from the API server; a failed List is a flag of that
 server. The specification of the method is `PlacementIndex`: the site that the greedy fill of the
 group's counts reaches after as many units as there are pending machines named before this one.
 */
module MetroPlacement {
  import opened Wrappers
  import opened Sorting
  import opened GreedyBalance

  /** The parts of a NutanixMachine that placement reads; `nativeFd` is its native-failuredomain label. */
  datatype NutanixMachine = NutanixMachine(name: string, deleting: bool, nativeFd: Option<string>)

  /** A CAPI Machine: the name in its infrastructureRef ("" when unset) and its labels. */
  datatype Machine = Machine(infraName: string, labels: map<string, string>)

  /** The two listings of one cluster, and whether reading them fails. */
  datatype ApiServer = ApiServer(
    machines: seq<Machine>,
    nutanixMachines: seq<NutanixMachine>,
    machineListFails: bool,
    nutanixMachineListFails: bool)

  // ---------- balancing groups ----------

  const MACHINE_SET_LABEL := "cluster.x-k8s.io/set-name"
  const MACHINE_DEPLOYMENT_LABEL := "cluster.x-k8s.io/deployment-name"
  const MACHINE_POOL_LABEL := "cluster.x-k8s.io/pool-name"
  const CONTROL_PLANE_LABEL := "cluster.x-k8s.io/control-plane"

  predicate Carries(labels: map<string, string>, k: string) {
    k in labels && labels[k] != ""
  }

  /** The owner label that attributes a machine to its group, most specific first. */
  function GroupLabel(labels: map<string, string>): Option<(string, string)> {
    if Carries(labels, MACHINE_SET_LABEL) then Some((MACHINE_SET_LABEL, labels[MACHINE_SET_LABEL]))
    else if Carries(labels, MACHINE_DEPLOYMENT_LABEL)
      then Some((MACHINE_DEPLOYMENT_LABEL, labels[MACHINE_DEPLOYMENT_LABEL]))
    else if Carries(labels, MACHINE_POOL_LABEL) then Some((MACHINE_POOL_LABEL, labels[MACHINE_POOL_LABEL]))
    else if CONTROL_PLANE_LABEL in labels then Some((CONTROL_PLANE_LABEL, labels[CONTROL_PLANE_LABEL]))
    else None
  }

  function KeyOfLabel(owner: Option<(string, string)>): string {
    match owner
    case None => ""
    case Some(pair) => if pair.1 == "" then pair.0 else pair.0 + "=" + pair.1
  }

  function GroupKey(labels: map<string, string>): string {
    KeyOfLabel(GroupLabel(labels))
  }

  /** The key of the machine being reconciled; "" when its CAPI Machine is unknown. */
  function OwnGroupKey(machine: Option<Machine>): string {
    if machine.Some? then GroupKey(machine.value.labels) else ""
  }

  /** The Machines the API server returns once the group's label selects them. */
  function Listed(machine: Option<Machine>, all: seq<Machine>): seq<Machine> {
    if machine.Some? && GroupLabel(machine.value.labels).Some?
    then Selected(GroupLabel(machine.value.labels).value, all)
    else all
  }

  /** What the API server checks for a one-label selector. */
  predicate Matches(owner: (string, string), m: Machine) {
    owner.0 in m.labels && m.labels[owner.0] == owner.1
  }

  function Selected(owner: (string, string), all: seq<Machine>): seq<Machine> {
    if all == [] then []
    else
      var n := |all| - 1;
      Selected(owner, all[..n]) + if Matches(owner, all[n]) then [all[n]] else []
  }

  /** The group key of each named infrastructure machine; a later Machine overwrites an earlier one. */
  function GroupKeys(machines: seq<Machine>): map<string, string> {
    if machines == [] then map[]
    else
      var n := |machines| - 1;
      var keys := GroupKeys(machines[..n]);
      if machines[n].infraName == "" then keys else keys[machines[n].infraName := GroupKey(machines[n].labels)]
  }

  /** A Go map read: "" when absent. */
  function KeyFor(keys: map<string, string>, name: string): string {
    if name in keys then keys[name] else ""
  }

  method MetroMachineGroupKeys(machine: Option<Machine>, api: ApiServer) returns (r: Result<map<string, string>>)
    ensures r == if api.machineListFails then Err else Ok(GroupKeys(Listed(machine, api.machines)))
  {
    if api.machineListFails { return Err; }
    var items := Listed(machine, api.machines);
    var keys := map[];
    for i := 0 to |items|
      invariant keys == GroupKeys(items[..i])
    {
      assert items[..i + 1][..i] == items[..i];
      if items[i].infraName != "" {
        keys := keys[items[i].infraName := GroupKey(items[i].labels)];
      }
    }
    assert items[..|items|] == items;
    return Ok(keys);
  }

  // ---------- what one reconcile counts ----------

  /** What a reconcile brings to the listing: the metro's sites, its own name, and the group. */
  datatype View = View(fds: seq<string>, me: string, groupKey: string, keys: map<string, string>)

  /** What a reconcile of `machine`'s infrastructure machine `me` reads off the cluster's Machines. */
  function ViewRead(fds: seq<string>, me: string, machine: Option<Machine>, all: seq<Machine>): View {
    View(fds, me, OwnGroupKey(machine), GroupKeys(Listed(machine, all)))
  }

  /** The machines one reconcile looks at: its own, and live ones of its group. */
  predicate Sibling(v: View, m: NutanixMachine) {
    m.name == v.me || ((v.groupKey == "" || KeyFor(v.keys, m.name) == v.groupKey) && !m.deleting)
  }

  /** The position of a failure domain among the first `n`; the last one of that name wins. */
  function FdIndexTo(fds: seq<string>, n: nat, name: string): (i: Option<nat>)
    requires n <= |fds|
    ensures i.Some? ==> i.value < n && fds[i.value] == name
    ensures i.None? ==> name !in fds[..n]
  {
    if n == 0 then None else if fds[n - 1] == name then Some(n - 1) else FdIndexTo(fds, n - 1, name)
  }

  function FdIndex(fds: seq<string>, name: string): Option<nat> {
    FdIndexTo(fds, |fds|, name)
  }

  /** The site a machine already occupies, if its label names one of the metro's. */
  function SiteOf(fds: seq<string>, m: NutanixMachine): Option<nat> {
    if m.nativeFd.Some? then FdIndex(fds, m.nativeFd.value) else None
  }

  /** What a machine can be counted as. */
  datatype Query = AtSite(i: nat) | Placed | Pending | PendingBefore

  predicate Hit(v: View, m: NutanixMachine, q: Query) {
    && Sibling(v, m)
    && match q
       case AtSite(i) => SiteOf(v.fds, m) == Some(i)
       case Placed => SiteOf(v.fds, m).Some?
       case Pending => m.nativeFd.None?
       case PendingBefore => m.nativeFd.None? && NameLess(m.name, v.me)
  }

  function Count(v: View, ms: seq<NutanixMachine>, q: Query): nat {
    if ms == [] then 0
    else Count(v, ms[..|ms| - 1], q) + if Hit(v, ms[|ms| - 1], q) then 1 else 0
  }

  /** The machines each site of the metro already holds. */
  function SiteCounts(v: View, ms: seq<NutanixMachine>): (c: seq<nat>)
    ensures |c| == |v.fds|
  {
    seq(|v.fds|, i requires 0 <= i < |v.fds| => Count(v, ms, AtSite(i)))
  }

  function PlacementIndex(v: View, ms: seq<NutanixMachine>): (i: nat)
    requires |v.fds| > 0
    ensures i < |v.fds|
  {
    Slot(SiteCounts(v, ms), Count(v, ms, PendingBefore))
  }

  /** The pending names one reconcile collects, in listing order. */
  function PendingNames(v: View, ms: seq<NutanixMachine>): seq<string> {
    if ms == [] then []
    else
      var n := |ms| - 1;
      PendingNames(v, ms[..n]) + if Hit(v, ms[n], Pending) then [ms[n].name] else []
  }

  function NamesBefore(names: seq<string>, me: string): nat {
    if names == [] then 0
    else NamesBefore(names[..|names| - 1], me) + if NameLess(names[|names| - 1], me) then 1 else 0
  }

  lemma {:induction false} PendingBeforeIsNamesBefore(v: View, ms: seq<NutanixMachine>)
    ensures Count(v, ms, PendingBefore) == NamesBefore(PendingNames(v, ms), v.me)
  {
    if ms != [] {
      var n := |ms| - 1;
      PendingBeforeIsNamesBefore(v, ms[..n]);
      var front := PendingNames(v, ms[..n]);
      if Hit(v, ms[n], Pending) {
        assert (front + [ms[n].name])[..|front|] == front;
      } else {
        assert front + [] == front;
      }
    }
  }

  /** How many names come before `me` does not depend on their order. */
  lemma {:induction false} NamesBeforeByContents(a: seq<string>, b: seq<string>, me: string)
    requires multiset(a) == multiset(b)
    ensures NamesBefore(a, me) == NamesBefore(b, me)
  {
    SameSize(a, b);
    if a != [] {
      var p := MatchLast(a, b);
      NamesBeforeByContents(a[..|a| - 1], Without(b, p), me);
      NamesBeforeWithout(b, p, me);
    }
  }

  lemma {:induction false} NamesBeforeWithout(b: seq<string>, p: nat, me: string)
    requires p < |b|
    ensures NamesBefore(b, me) == NamesBefore(Without(b, p), me) + if NameLess(b[p], me) then 1 else 0
  {
    var n := |b| - 1;
    if p == n {
      WithoutLast(b);
    } else {
      NamesBeforeWithout(b[..n], p, me);
      WithoutPrefix(b, p);
    }
  }

  /** In a sorted listing, the position of `me` is the number of names before it. */
  lemma {:induction false} SortedPosition(s: seq<string>, p: nat)
    requires Sorted(NameLess, s) && p < |s| && s[p] !in s[..p]
    ensures NamesBefore(s, s[p]) == p
  {
    NamesAreOrdered();
    SortedPositionTo(s, p, |s|);
    assert s[..|s|] == s;
  }

  lemma {:induction false} SortedPositionTo(s: seq<string>, p: nat, n: nat)
    requires StrictTotalOrder(NameLess)
    requires Sorted(NameLess, s) && p < |s| && s[p] !in s[..p] && n <= |s|
    ensures NamesBefore(s[..n], s[p]) == if n <= p then n else p
  {
    if n > 0 {
      SortedPositionTo(s, p, n - 1);
      assert s[..n][..n - 1] == s[..n - 1];
      if n - 1 < p { assert s[n - 1] in s[..p]; }
    }
  }

  // ---------- the method ----------

  method IndexSites(fds: seq<string>) returns (fdIndex: map<string, nat>)
    ensures forall name :: name in fdIndex <==> FdIndex(fds, name).Some?
    ensures forall name :: name in fdIndex ==> Some(fdIndex[name]) == FdIndex(fds, name)
  {
    fdIndex := map[];
    for i := 0 to |fds|
      invariant forall name :: name in fdIndex <==> FdIndexTo(fds, i, name).Some?
      invariant forall name :: name in fdIndex ==> Some(fdIndex[name]) == FdIndexTo(fds, i, name)
    {
      fdIndex := fdIndex[fds[i] := i];
    }
  }

  /** What one more machine of the listing adds to the counts and to the pending names. */
  lemma NextSibling(v: View, items: seq<NutanixMachine>, i: nat)
    requires i < |items|
    ensures SiteCounts(v, items[..i + 1])
         == if Hit(v, items[i], Placed) then Bump(SiteCounts(v, items[..i]), SiteOf(v.fds, items[i]).value)
            else SiteCounts(v, items[..i])
    ensures PendingNames(v, items[..i + 1])
         == PendingNames(v, items[..i]) + if Hit(v, items[i], Pending) then [items[i].name] else []
  {
    assert items[..i + 1][..i] == items[..i];
  }

  /** One pass over the listing: placed siblings into `counts`, unlabelled ones into `pending`. */
  method CollectSiblings(v: View, items: seq<NutanixMachine>) returns (counts: array<nat>, pending: seq<string>)
    ensures fresh(counts)
    ensures counts[..] == SiteCounts(v, items)
    ensures pending == PendingNames(v, items)
  {
    var fdIndex := IndexSites(v.fds);
    counts := new nat[|v.fds|](_ => 0);
    pending := [];
    for i := 0 to |items|
      invariant counts[..] == SiteCounts(v, items[..i])
      invariant pending == PendingNames(v, items[..i])
    {
      NextSibling(v, items, i);
      var nm := items[i];
      if v.groupKey != "" && nm.name != v.me && KeyFor(v.keys, nm.name) != v.groupKey { continue; }
      if nm.deleting && nm.name != v.me { continue; }
      if nm.nativeFd.Some? {
        if nm.nativeFd.value in fdIndex {
          var idx := fdIndex[nm.nativeFd.value];
          counts[idx] := counts[idx] + 1;
        }
        continue;
      }
      pending := pending + [nm.name];
    }
    assert items[..|items|] == items;
  }

  /** Go's scan for the first smallest count. */
  method LeastLoaded(counts: array<nat>) returns (idx: nat)
    requires counts.Length > 0
    ensures idx == LeastIndex(counts[..])
  {
    var minCount := -1;
    idx := 0;
    for i := 0 to counts.Length
      invariant i == 0 ==> idx == 0 && minCount == -1
      invariant i > 0 ==> idx == LeastTo(counts[..], i) && minCount == counts[idx]
      invariant idx < counts.Length
    {
      if minCount < 0 || counts[i] < minCount {
        minCount := counts[i];
        idx := i;
      }
    }
  }

  /** The greedy simulation in name order, up to the machine being reconciled. */
  method SimulateUntil(counts: array<nat>, pending: seq<string>, me: string) returns (idx: nat)
    requires counts.Length > 0
    requires Sorted(NameLess, pending) && me in pending
    modifies counts
    ensures idx == Slot(old(counts[..]), NamesBefore(pending, me))
    ensures idx < counts.Length
  {
    ghost var seed := counts[..];
    var j := 0;
    idx := 0;
    while j < |pending|
      invariant j <= |pending|
      invariant counts[..] == Fill(seed, j)
      invariant me !in pending[..j]
    {
      idx := LeastLoaded(counts);
      if pending[j] == me {
        SortedPosition(pending, j);
        return;
      }
      counts[idx] := counts[idx] + 1;
      j := j + 1;
    }
    assert false;
  }

  /** Callers have made sure that the metro has a failure domain. */
  method ComputeMetroPlacementIndex(fds: seq<string>, me: string, machine: Option<Machine>, api: ApiServer)
    returns (r: Result<nat>)
    requires |fds| > 0
    ensures r == if api.machineListFails || api.nutanixMachineListFails then Err
                 else Ok(PlacementIndex(ViewRead(fds, me, machine, api.machines), api.nutanixMachines))
  {
    var groupKey := OwnGroupKey(machine);
    var keysRead := MetroMachineGroupKeys(machine, api);
    if keysRead.Err? || api.nutanixMachineListFails { return Err; }
    var v := View(fds, me, groupKey, keysRead.value);

    var counts, pending := CollectSiblings(v, api.nutanixMachines);
    PendingBeforeIsNamesBefore(v, api.nutanixMachines);
    if me !in pending {
      NamesAreOrdered();
      assert (pending + [me])[..|pending|] == pending;
      pending := pending + [me];
    }
    NamesAreOrdered();
    SortSorts(NameLess, pending);
    NamesBeforeByContents(pending, Sort(NameLess, pending), me);
    assert me in multiset(pending);
    var idx := SimulateUntil(counts, Sort(NameLess, pending), me);
    return Ok(idx);
  }
}
