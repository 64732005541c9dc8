/**
 Which machines a placement counts, in terms of labels, names and deletion: the balancing groups of
 `metroPlacementGroupLabel` and the siblings that `computeMetroPlacementIndex` looks at.
 */
module PlacementGroups {
  import opened Wrappers
  import opened Sorting
  import opened GreedyBalance
  import opened MetroPlacement
  import opened PlacementScope

  // ---------- which label decides ----------

  lemma SameKeySameLabel(a: map<string, string>, b: map<string, string>)
    requires GroupLabel(a).Some?
    ensures GroupKey(a) == GroupKey(b) <==> GroupLabel(a) == GroupLabel(b)
  {
    if GroupKey(a) == GroupKey(b) { GroupKeyInjective(a, b); }
  }

  /** Machines of a MachineSet are grouped by it, whatever other labels they carry. */
  lemma SetDecides(a: map<string, string>, b: map<string, string>)
    requires Carries(a, MACHINE_SET_LABEL)
    ensures GroupKey(a) == GroupKey(b)
        <==> Carries(b, MACHINE_SET_LABEL) && a[MACHINE_SET_LABEL] == b[MACHINE_SET_LABEL]
  {
    SameKeySameLabel(a, b);
  }

  /** Without a MachineSet, the MachineDeployment decides. */
  lemma DeploymentDecides(a: map<string, string>, b: map<string, string>)
    requires !Carries(a, MACHINE_SET_LABEL) && Carries(a, MACHINE_DEPLOYMENT_LABEL)
    ensures GroupKey(a) == GroupKey(b)
       <==> !Carries(b, MACHINE_SET_LABEL) && Carries(b, MACHINE_DEPLOYMENT_LABEL)
            && a[MACHINE_DEPLOYMENT_LABEL] == b[MACHINE_DEPLOYMENT_LABEL]
  {
    SameKeySameLabel(a, b);
  }

  /** Without either, the MachinePool. */
  lemma PoolDecides(a: map<string, string>, b: map<string, string>)
    requires !Carries(a, MACHINE_SET_LABEL) && !Carries(a, MACHINE_DEPLOYMENT_LABEL) && Carries(a, MACHINE_POOL_LABEL)
    ensures GroupKey(a) == GroupKey(b)
       <==> !Carries(b, MACHINE_SET_LABEL) && !Carries(b, MACHINE_DEPLOYMENT_LABEL)
            && Carries(b, MACHINE_POOL_LABEL) && a[MACHINE_POOL_LABEL] == b[MACHINE_POOL_LABEL]
  {
    SameKeySameLabel(a, b);
  }

  predicate OfWorkers(labels: map<string, string>) {
    Carries(labels, MACHINE_SET_LABEL) || Carries(labels, MACHINE_DEPLOYMENT_LABEL)
      || Carries(labels, MACHINE_POOL_LABEL)
  }

  /** Without any of the three, the control-plane label, which may be empty; and without that there is no group. */
  lemma ControlPlaneDecides(a: map<string, string>, b: map<string, string>)
    requires !OfWorkers(a)
    ensures CONTROL_PLANE_LABEL in a ==>
              (GroupKey(a) == GroupKey(b) <==>
               !OfWorkers(b) && CONTROL_PLANE_LABEL in b && a[CONTROL_PLANE_LABEL] == b[CONTROL_PLANE_LABEL])
    ensures CONTROL_PLANE_LABEL !in a <==> GroupKey(a) == ""
  {
    if CONTROL_PLANE_LABEL in a {
      SameKeySameLabel(a, b);
      AttributedKeyNonEmpty(a);
    }
  }

  /** The key as text; a control-plane label without a value stands alone. */
  lemma KeyText(a: map<string, string>)
    ensures Carries(a, MACHINE_SET_LABEL) ==> GroupKey(a) == MACHINE_SET_LABEL + "=" + a[MACHINE_SET_LABEL]
    ensures !OfWorkers(a) && CONTROL_PLANE_LABEL in a && a[CONTROL_PLANE_LABEL] == "" ==>
              GroupKey(a) == CONTROL_PLANE_LABEL
  {
  }

  // ---------- which machines count ----------

  /** A machine that a reconcile of `me` takes into account: itself, or a live one whose key is the group's. */
  predicate Counts(v: View, m: NutanixMachine) {
    if m.name == v.me then true
    else if m.deleting then false
    else v.groupKey != "" ==> m.name in v.keys && v.keys[m.name] == v.groupKey
  }

  /** The machines of a listing that stand on a site. */
  function Standing(v: View, ms: seq<NutanixMachine>, site: string): set<nat> {
    set k: nat | k < |ms| && Counts(v, ms[k]) && ms[k].nativeFd == Some(site)
  }

  /** The machines of a listing that await a site and come before `me` by name. */
  function Ahead(v: View, ms: seq<NutanixMachine>): set<nat> {
    set k: nat | k < |ms| && Counts(v, ms[k]) && ms[k].nativeFd == None && NameLess(ms[k].name, v.me)
  }

  lemma StandingLast(v: View, ms: seq<NutanixMachine>, site: string)
    requires ms != []
    ensures |Standing(v, ms, site)| == |Standing(v, ms[..|ms| - 1], site)|
              + if Counts(v, ms[|ms| - 1]) && ms[|ms| - 1].nativeFd == Some(site) then 1 else 0
  {
    var n := |ms| - 1;
    var more := if Counts(v, ms[n]) && ms[n].nativeFd == Some(site) then {n} else {};
    assert Standing(v, ms, site) == Standing(v, ms[..n], site) + more;
  }

  lemma AheadLast(v: View, ms: seq<NutanixMachine>)
    requires ms != []
    ensures |Ahead(v, ms)| == |Ahead(v, ms[..|ms| - 1])|
              + if Counts(v, ms[|ms| - 1]) && ms[|ms| - 1].nativeFd == None && NameLess(ms[|ms| - 1].name, v.me)
                then 1 else 0
  {
    var n := |ms| - 1;
    var more := if Counts(v, ms[n]) && ms[n].nativeFd == None && NameLess(ms[n].name, v.me) then {n} else {};
    assert Ahead(v, ms) == Ahead(v, ms[..n]) + more;
  }

  lemma {:induction false} FdIndexIs(fds: seq<string>, n: nat, name: string, i: nat)
    requires Distinct(fds) && i < n <= |fds|
    ensures FdIndexTo(fds, n, name) == Some(i) <==> name == fds[i]
  {
    if i < n - 1 { FdIndexIs(fds, n - 1, name, i); }
  }

  lemma {:induction false} SiteHolds(v: View, ms: seq<NutanixMachine>, i: nat)
    requires Distinct(v.fds) && i < |v.fds|
    ensures Count(v, ms, AtSite(i)) == |Standing(v, ms, v.fds[i])|
  {
    if ms == [] {
      assert Standing(v, ms, v.fds[i]) == {};
    } else {
      SiteHolds(v, ms[..|ms| - 1], i);
      StandingLast(v, ms, v.fds[i]);
      if ms[|ms| - 1].nativeFd.Some? { FdIndexIs(v.fds, |v.fds|, ms[|ms| - 1].nativeFd.value, i); }
    }
  }

  lemma {:induction false} PendingAhead(v: View, ms: seq<NutanixMachine>)
    ensures Count(v, ms, PendingBefore) == |Ahead(v, ms)|
  {
    if ms == [] {
      assert Ahead(v, ms) == {};
    } else {
      PendingAhead(v, ms[..|ms| - 1]);
      AheadLast(v, ms);
    }
  }

  /** The placement of a machine, with every site holding the machines that stand on it. */
  lemma {:induction false} PlacementIs(v: View, ms: seq<NutanixMachine>, counts: seq<nat>)
    requires |v.fds| > 0 && Distinct(v.fds) && |counts| == |v.fds|
    requires forall i :: 0 <= i < |counts| ==> counts[i] == |Standing(v, ms, v.fds[i])|
    ensures PlacementIndex(v, ms) == Slot(counts, |Ahead(v, ms)|)
  {
    forall i | 0 <= i < |counts| ensures counts[i] == SiteCounts(v, ms)[i] { SiteHolds(v, ms, i); }
    assert counts == SiteCounts(v, ms);
    PendingAhead(v, ms);
  }

  /** A Machine of the same group refers to the infrastructure machine. */
  ghost predicate SharesGroup(machine: Machine, all: seq<Machine>, name: string) {
    exists o :: o in all && o.infraName == name && GroupKey(o.labels) == GroupKey(machine.labels)
  }

  /** The Machines that a reconcile of a MachineSet's machine reads: those of the set, and no others. */
  lemma {:induction false} ListedIff(machine: Machine, all: seq<Machine>, m: Machine)
    requires Carries(machine.labels, MACHINE_SET_LABEL)
    ensures m in Listed(Some(machine), all)
       <==> m in all && Carries(m.labels, MACHINE_SET_LABEL)
            && m.labels[MACHINE_SET_LABEL] == machine.labels[MACHINE_SET_LABEL]
  {
    SelectedMembers(GroupLabel(machine.labels).value, all);
  }

  /**
   Who counts for a machine that is in a group: besides itself, the live machines that the cluster's Machines
   put in the group, if those that refer to one infrastructure machine are of one group.
   */
  lemma {:induction false} CountsIff(
      fds: seq<string>, me: string, machine: Machine, all: seq<Machine>, m: NutanixMachine)
    requires GroupLabel(machine.labels).Some? && OneGroup(all, m.name) && m.name != ""
    ensures Counts(ViewRead(fds, me, Some(machine), all), m)
       <==> m.name == me || (!m.deleting && SharesGroup(machine, all, m.name))
  {
    FilterKeepsVerdicts(machine, all, m.name);
    AttributedKeyNonEmpty(machine.labels);
    KeyIsOwners(all, m.name);
    if Owner(all, m.name).Some? { OwnerIsListed(all, m.name); }
    if o :| o in all && o.infraName == m.name && GroupKey(o.labels) == GroupKey(machine.labels) {
      ListedHasOwner(all, o);
      SameGroup(all, m.name, o, Owner(all, m.name).value);
    }
  }

  /** For a machine of no group, or whose Machine is not known, all live machines count. */
  lemma CountsClusterWide(
      fds: seq<string>, me: string, machine: Option<Machine>, all: seq<Machine>, m: NutanixMachine)
    requires machine.Some? ==> GroupLabel(machine.value.labels).None?
    ensures Counts(ViewRead(fds, me, machine, all), m) <==> m.name == me || !m.deleting
  {
  }

  // ---------- which machines change nothing ----------

  /** A machine that does not count can be left out of the listing. */
  lemma {:induction false} BystanderIgnored(v: View, ms: seq<NutanixMachine>, p: nat)
    requires |v.fds| > 0 && p < |ms| && !Counts(v, ms[p])
    ensures PlacementIndex(v, ms) == PlacementIndex(v, Without(ms, p))
  {
    forall q ensures Count(v, ms, q) == Count(v, Without(ms, p), q) { CountWithout(v, ms, p, q); }
    assert SiteCounts(v, ms) == SiteCounts(v, Without(ms, p));
  }

  /** Nor does one whose label names no site of the metro change anything. */
  lemma {:induction false} UntrackedIgnored(v: View, ms: seq<NutanixMachine>, p: nat)
    requires |v.fds| > 0 && p < |ms| && ms[p].nativeFd.Some? && ms[p].nativeFd.value !in v.fds
    ensures PlacementIndex(v, ms) == PlacementIndex(v, Without(ms, p))
  {
    forall i: nat ensures Count(v, ms, AtSite(i)) == Count(v, Without(ms, p), AtSite(i)) {
      CountWithout(v, ms, p, AtSite(i));
    }
    CountWithout(v, ms, p, PendingBefore);
    assert SiteCounts(v, ms) == SiteCounts(v, Without(ms, p));
  }

  /** A machine on its way out frees its slot. */
  lemma {:induction false} TerminatingIgnored(v: View, ms: seq<NutanixMachine>, p: nat)
    requires |v.fds| > 0 && p < |ms| && ms[p].deleting && ms[p].name != v.me
    ensures PlacementIndex(v, ms) == PlacementIndex(v, Without(ms, p))
  {
    BystanderIgnored(v, ms, p);
  }

  /** No Machine of the cluster makes `name` a machine of the set. */
  ghost predicate NotOfSet(all: seq<Machine>, name: string, set': string) {
    forall m :: m in all && m.infraName == name ==>
      !(Carries(m.labels, MACHINE_SET_LABEL) && m.labels[MACHINE_SET_LABEL] == set')
  }

  lemma {:induction false} NotOfSetHasOtherKey(machine: Machine, all: seq<Machine>, name: string)
    requires Carries(machine.labels, MACHINE_SET_LABEL) && NotOfSet(all, name, machine.labels[MACHINE_SET_LABEL])
    ensures KeyFor(GroupKeys(Listed(Some(machine), all)), name) != GroupKey(machine.labels)
  {
    var listed := Listed(Some(machine), all);
    KeyIsOwners(listed, name);
    AttributedKeyNonEmpty(machine.labels);
    if Owner(listed, name).Some? {
      OwnerIsListed(listed, name);
      SelectedMembers(GroupLabel(machine.labels).value, all);
      SetDecides(machine.labels, Owner(listed, name).value.labels);
    }
  }

  /**
   Machines of other MachineSets never change a placement, those of the same MachineDeployment included: so
   a rolling upgrade balances the new generation by itself.
   */
  lemma {:induction false} OtherSetIgnored(
      fds: seq<string>, me: string, machine: Machine, all: seq<Machine>, ms: seq<NutanixMachine>, p: nat)
    requires |fds| > 0 && p < |ms| && ms[p].name != me
    requires Carries(machine.labels, MACHINE_SET_LABEL) && NotOfSet(all, ms[p].name, machine.labels[MACHINE_SET_LABEL])
    ensures PlacementIndex(ViewRead(fds, me, Some(machine), all), ms)
         == PlacementIndex(ViewRead(fds, me, Some(machine), all), Without(ms, p))
  {
    AttributedKeyNonEmpty(machine.labels);
    NotOfSetHasOtherKey(machine, all, ms[p].name);
    BystanderIgnored(ViewRead(fds, me, Some(machine), all), ms, p);
  }
}
