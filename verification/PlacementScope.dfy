/**
 What a placement depends on: the siblings in the listing and nothing else. Not the order of the
 listing, not the machines of other groups, and not whether the API server or the controller drops
 the Machines of other groups.
 */
module PlacementScope {
  import opened Wrappers
  import opened Sorting
  import opened GreedyBalance
  import opened MetroPlacement

  // ---------- independence of listing order and of other groups ----------

  lemma {:induction false} CountWithout(v: View, ms: seq<NutanixMachine>, p: nat, q: Query)
    requires p < |ms|
    ensures Count(v, ms, q) == Count(v, Without(ms, p), q) + if Hit(v, ms[p], q) then 1 else 0
  {
    var n := |ms| - 1;
    if p == n {
      WithoutLast(ms);
    } else {
      CountWithout(v, ms[..n], p, q);
      WithoutPrefix(ms, p);
    }
  }

  lemma {:induction false} CountByContents(v: View, a: seq<NutanixMachine>, b: seq<NutanixMachine>, q: Query)
    requires multiset(a) == multiset(b)
    ensures Count(v, a, q) == Count(v, b, q)
  {
    SameSize(a, b);
    if a != [] {
      var p := MatchLast(a, b);
      CountByContents(v, a[..|a| - 1], Without(b, p), q);
      CountWithout(v, b, p, q);
    }
  }

  /** The machines of a listing that a reconcile looks at. */
  function Siblings(v: View, ms: seq<NutanixMachine>): seq<NutanixMachine> {
    if ms == [] then []
    else Siblings(v, ms[..|ms| - 1]) + if Sibling(v, ms[|ms| - 1]) then [ms[|ms| - 1]] else []
  }

  lemma CountLast(v: View, front: seq<NutanixMachine>, m: NutanixMachine, q: Query)
    ensures Count(v, front + [m], q) == Count(v, front, q) + if Hit(v, m, q) then 1 else 0
  {
    assert (front + [m])[..|front|] == front;
  }

  lemma {:induction false} CountOfSiblings(v: View, ms: seq<NutanixMachine>, q: Query)
    ensures Count(v, ms, q) == Count(v, Siblings(v, ms), q)
  {
    if ms != [] {
      var n := |ms| - 1;
      CountOfSiblings(v, ms[..n], q);
      if Sibling(v, ms[n]) {
        CountLast(v, Siblings(v, ms[..n]), ms[n], q);
      } else {
        assert Siblings(v, ms) == Siblings(v, ms[..n]);
      }
    }
  }

  /** Listings that agree on the siblings, in whatever order, give one placement. */
  lemma {:induction false} PlacementByContents(v: View, a: seq<NutanixMachine>, b: seq<NutanixMachine>)
    requires |v.fds| > 0
    requires multiset(Siblings(v, a)) == multiset(Siblings(v, b))
    ensures PlacementIndex(v, a) == PlacementIndex(v, b)
  {
    forall q ensures Count(v, a, q) == Count(v, b, q) {
      CountOfSiblings(v, a, q);
      CountOfSiblings(v, b, q);
      CountByContents(v, Siblings(v, a), Siblings(v, b), q);
    }
    assert SiteCounts(v, a) == SiteCounts(v, b);
  }

  // ---------- the server-side group filter ----------

  ghost predicate NoEquals(s: string) {
    forall i :: 0 <= i < |s| ==> s[i] != '='
  }

  lemma OwnerLabelsHaveNoEquals(labels: map<string, string>)
    requires GroupLabel(labels).Some?
    ensures NoEquals(GroupLabel(labels).value.0) && GroupLabel(labels).value.0 != ""
  {
    assert NoEquals(MACHINE_SET_LABEL) && NoEquals(MACHINE_DEPLOYMENT_LABEL);
    assert NoEquals(MACHINE_POOL_LABEL) && NoEquals(CONTROL_PLANE_LABEL);
  }

  lemma SplitAtEquals(k: string, v: string, k': string, v': string)
    requires NoEquals(k) && NoEquals(k') && k + "=" + v == k' + "=" + v'
    ensures k == k' && v == v'
  {
    var s, s' := k + "=" + v, k' + "=" + v';
    assert s[|k|] == '=' && s'[|k'|] == '=';
    assert forall i :: 0 <= i < |k| ==> s[i] == k[i] != '=';
    assert forall i :: 0 <= i < |k'| ==> s'[i] == k'[i] != '=';
    assert |k| == |k'|;
    assert k == s[..|k|] && k' == s'[..|k'|];
    assert v == s[|k| + 1..] && v' == s'[|k'| + 1..];
  }

  /** The key string names the chosen label pair: different pairs have different keys. */
  lemma GroupKeyInjective(a: map<string, string>, b: map<string, string>)
    requires GroupLabel(a).Some? && GroupKey(a) == GroupKey(b)
    ensures GroupLabel(a) == GroupLabel(b)
  {
    OwnerLabelsHaveNoEquals(a);
    var pa := GroupLabel(a).value;
    assert pa.0 != "" && GroupKey(a) != "" by {
      if pa.1 != "" { assert |pa.0 + "=" + pa.1| > 0; }
    }
    assert GroupLabel(b).Some?;
    OwnerLabelsHaveNoEquals(b);
    var pb := GroupLabel(b).value;
    assert pa.1 != "" ==> GroupKey(a)[|pa.0|] == '=';
    assert pb.1 != "" ==> GroupKey(b)[|pb.0|] == '=';
    if pa.1 != "" && pb.1 != "" {
      SplitAtEquals(pa.0, pa.1, pb.0, pb.1);
    }
  }

  lemma AttributedKeyNonEmpty(labels: map<string, string>)
    requires GroupLabel(labels).Some?
    ensures GroupKey(labels) != ""
  {
    OwnerLabelsHaveNoEquals(labels);
    var owner := GroupLabel(labels).value;
    assert |owner.0 + "=" + owner.1| > 0;
  }

  lemma {:induction false} SelectedMembers(owner: (string, string), all: seq<Machine>)
    ensures forall m :: m in Selected(owner, all) <==> m in all && Matches(owner, m)
  {
    if all != [] {
      assert all == all[..|all| - 1] + [all[|all| - 1]];
      SelectedMembers(owner, all[..|all| - 1]);
    }
  }

  /** The last Machine of a listing that refers to an infrastructure machine. */
  function Owner(machines: seq<Machine>, name: string): Option<Machine> {
    if machines == [] || name == "" then None
    else if machines[|machines| - 1].infraName == name then Some(machines[|machines| - 1])
    else Owner(machines[..|machines| - 1], name)
  }

  lemma {:induction false} KeyIsOwners(machines: seq<Machine>, name: string)
    ensures KeyFor(GroupKeys(machines), name)
         == if Owner(machines, name).Some? then GroupKey(Owner(machines, name).value.labels) else ""
  {
    if machines != [] {
      KeyIsOwners(machines[..|machines| - 1], name);
    }
  }

  predicate InGroup(machines: seq<Machine>, name: string, key: string) {
    Owner(machines, name).Some? && GroupKey(Owner(machines, name).value.labels) == key
  }

  /** A Machine of the group is among those that the filter selects. */
  lemma GroupIsSelected(labels: map<string, string>, m: Machine)
    requires GroupLabel(labels).Some? && GroupKey(m.labels) == GroupKey(labels)
    ensures Matches(GroupLabel(labels).value, m)
  {
    AttributedKeyNonEmpty(labels);
    GroupKeyInjective(labels, m.labels);
  }

  /** Filtering loses no sibling, whatever the Machines refer to. */
  lemma {:induction false} FilterKeepsSiblings(labels: map<string, string>, all: seq<Machine>, name: string)
    requires GroupLabel(labels).Some? && InGroup(all, name, GroupKey(labels))
    ensures Owner(Selected(GroupLabel(labels).value, all), name) == Owner(all, name)
  {
    var n := |all| - 1;
    var front := Selected(GroupLabel(labels).value, all[..n]);
    if all[n].infraName == name {
      GroupIsSelected(labels, all[n]);
      assert (front + [all[n]])[|front|] == all[n];
    } else {
      FilterKeepsSiblings(labels, all[..n], name);
      assert (front + [all[n]])[..|front|] == front && front + [] == front;
    }
  }

  /**
   Another Machine refers to an infrastructure machine of the group, and is listed after every one of the
   group: an infrastructure machine with two owners in two groups.
   */
  predicate Disputed(machine: Machine, all: seq<Machine>, name: string) {
    var key := GroupKey(machine.labels);
    InGroup(Listed(Some(machine), all), name, key) && !InGroup(all, name, key)
  }

  ghost predicate OneGroup(all: seq<Machine>, name: string) {
    forall i, j :: 0 <= i < j < |all| && all[i].infraName == name == all[j].infraName ==>
      GroupKey(all[i].labels) == GroupKey(all[j].labels)
  }

  lemma {:induction false} OwnerIsListed(machines: seq<Machine>, name: string)
    requires Owner(machines, name).Some?
    ensures Owner(machines, name).value in machines && Owner(machines, name).value.infraName == name
  {
    if machines[|machines| - 1].infraName != name {
      OwnerIsListed(machines[..|machines| - 1], name);
    }
  }

  lemma {:induction false} ListedHasOwner(machines: seq<Machine>, m: Machine)
    requires m in machines && m.infraName != ""
    ensures Owner(machines, m.infraName).Some?
  {
    var n := |machines| - 1;
    if machines[n].infraName != m.infraName {
      assert machines == machines[..n] + [machines[n]];
      ListedHasOwner(machines[..n], m);
    }
  }

  /** Nobody is disputed whose owners, if there are several, are all of one group. */
  lemma {:induction false} OneGroupUndisputed(machine: Machine, all: seq<Machine>, name: string)
    requires GroupLabel(machine.labels).Some? && OneGroup(all, name)
    ensures !Disputed(machine, all, name)
  {
    var listed := Listed(Some(machine), all);
    if InGroup(listed, name, GroupKey(machine.labels)) {
      OwnerIsListed(listed, name);
      SelectedMembers(GroupLabel(machine.labels).value, all);
      ListedHasOwner(all, Owner(listed, name).value);
      OwnerIsListed(all, name);
      SameGroup(all, name, Owner(listed, name).value, Owner(all, name).value);
    }
  }

  lemma SameGroup(all: seq<Machine>, name: string, a: Machine, b: Machine)
    requires OneGroup(all, name) && a in all && b in all && a.infraName == name == b.infraName
    ensures GroupKey(a.labels) == GroupKey(b.labels)
  {
    var i :| 0 <= i < |all| && all[i] == a;
    var j :| 0 <= j < |all| && all[j] == b;
    if i < j { assert all[i].infraName == all[j].infraName; }
    if j < i { assert all[j].infraName == all[i].infraName; }
  }

  lemma InGroupIsKey(machines: seq<Machine>, name: string, labels: map<string, string>)
    requires GroupLabel(labels).Some?
    ensures InGroup(machines, name, GroupKey(labels)) <==> KeyFor(GroupKeys(machines), name) == GroupKey(labels)
  {
    AttributedKeyNonEmpty(labels);
    KeyIsOwners(machines, name);
  }

  /**
   The filtered Machine list decides a sibling exactly as the whole cluster's list would, if and only if
   the machine is not disputed. Filtering never loses a sibling.
   */
  lemma FilterKeepsVerdictIff(machine: Machine, all: seq<Machine>, name: string)
    requires GroupLabel(machine.labels).Some?
    ensures var filtered := KeyFor(GroupKeys(Listed(Some(machine), all)), name) == GroupKey(machine.labels);
            var whole := KeyFor(GroupKeys(all), name) == GroupKey(machine.labels);
            (whole ==> filtered) && ((filtered <==> whole) <==> !Disputed(machine, all, name))
  {
    InGroupIsKey(all, name, machine.labels);
    InGroupIsKey(Listed(Some(machine), all), name, machine.labels);
    if InGroup(all, name, GroupKey(machine.labels)) { FilterKeepsSiblings(machine.labels, all, name); }
  }

  /** In particular it does for every infrastructure machine whose owners are of one group. */
  lemma FilterKeepsVerdicts(machine: Machine, all: seq<Machine>, name: string)
    requires GroupLabel(machine.labels).Some? && OneGroup(all, name)
    ensures KeyFor(GroupKeys(Listed(Some(machine), all)), name) == GroupKey(machine.labels)
       <==> KeyFor(GroupKeys(all), name) == GroupKey(machine.labels)
  {
    OneGroupUndisputed(machine, all, name);
    FilterKeepsVerdictIff(machine, all, name);
  }

  lemma {:induction false} CountBySiblingVerdicts(v: View, w: View, ms: seq<NutanixMachine>, q: Query)
    requires v.fds == w.fds && v.me == w.me
    requires forall i :: 0 <= i < |ms| ==> (Sibling(v, ms[i]) <==> Sibling(w, ms[i]))
    ensures Count(v, ms, q) == Count(w, ms, q)
  {
    if ms != [] {
      CountBySiblingVerdicts(v, w, ms[..|ms| - 1], q);
    }
  }

  /** The view of a reconcile that reads all Machines of the cluster. */
  function WholeView(fds: seq<string>, me: string, machine: Machine, all: seq<Machine>): View {
    View(fds, me, GroupKey(machine.labels), GroupKeys(all))
  }

  /** So filtering on the server changes no placement among machines that are not disputed. */
  lemma {:induction false} FilterRefinesWholeCluster(
      fds: seq<string>, me: string, machine: Machine, all: seq<Machine>, ms: seq<NutanixMachine>)
    requires |fds| > 0 && forall i :: 0 <= i < |ms| ==> !Disputed(machine, all, ms[i].name)
    ensures PlacementIndex(ViewRead(fds, me, Some(machine), all), ms)
         == PlacementIndex(WholeView(fds, me, machine, all), ms)
  {
    if GroupLabel(machine.labels).Some? {
      var v, w := ViewRead(fds, me, Some(machine), all), WholeView(fds, me, machine, all);
      forall i | 0 <= i < |ms| ensures Sibling(v, ms[i]) <==> Sibling(w, ms[i]) {
        FilterKeepsVerdictIff(machine, all, ms[i].name);
      }
      forall q ensures Count(v, ms, q) == Count(w, ms, q) {
        CountBySiblingVerdicts(v, w, ms, q);
      }
      assert SiteCounts(v, ms) == SiteCounts(w, ms);
    }
  }
}
