/**
 The deleting halves of the NutanixCluster and NutanixVirtualHADomain reconcilers: what each removes,
 in which order, and what makes it keep its finalizer.
 */
module ClusterTeardown {
  import opened Wrappers
  import V = VhaResources

  // ---------- deleting what a spec records ----------

  function GroupPlans(plans: seq<V.CategoryPlan>): (r: seq<string>)
    ensures |r| == |plans|
  {
    if plans == [] then [] else GroupPlans(plans[..|plans| - 1]) + [plans[|plans| - 1].plan]
  }

  /** The recovery plans of a spec in order; "" stands for one that is not set. */
  function PlansIn(groups: seq<V.MovementGroup>): seq<string> {
    if groups == [] then [] else PlansIn(groups[..|groups| - 1]) + GroupPlans(groups[|groups| - 1].plans)
  }

  /** The categories of a spec's slots. */
  function CategoriesIn(groups: seq<V.MovementGroup>): set<string> {
    set g: nat, i: nat | g < |groups| && i < |groups[g].plans| :: groups[g].plans[i].category
  }

  /** Everything that a spec records, by UUID. */
  function Recorded(spec: V.Spec): set<string> {
    (set u | u in PlansIn(spec.groups)) + {spec.policy} - {""}
  }

  function WithoutPlan(p: V.Prism, uuid: string): V.Prism {
    map k | k in p && !(k.Plan? && p[k].uuid == uuid) :: p[k]
  }

  function WithoutPolicy(p: V.Prism, uuid: string): V.Prism {
    map k | k in p && !(k.Policy? && p[k].uuid == uuid) :: p[k]
  }

  function WithoutCategories(p: V.Prism, values: set<string>): V.Prism {
    map k | k in p && !(k.Category? && k.value in values) :: p[k]
  }

  /** How many deletions succeed, and whether the one that fails then has been accepted nevertheless. */
  datatype Calls = Calls(succeed: nat, lastLands: bool)

  /** After some deletions: Prism, what to expect of further ones, and whether all have succeeded so far. */
  datatype Progress = Progress(prism: V.Prism, calls: Calls, ok: bool)

  /** One more deletion, which leaves `gone` of Prism when it lands. */
  function Deleting(s: Progress, gone: V.Prism): Progress {
    if s.calls.succeed == 0 then Progress(if s.calls.lastLands then gone else s.prism, s.calls, false)
    else Progress(gone, s.calls.(succeed := s.calls.succeed - 1), true)
  }

  /** A plan that is gone already does not matter. */
  function PlanDeleted(s: Progress, uuid: string): Progress {
    if !s.ok || uuid == "" then s else Deleting(s, WithoutPlan(s.prism, uuid))
  }

  function PlansDeleted(s: Progress, plans: seq<string>): Progress {
    if plans == [] then s else PlanDeleted(PlansDeleted(s, plans[..|plans| - 1]), plans[|plans| - 1])
  }

  function PolicyDeleted(s: Progress, uuid: string): Progress {
    if !s.ok || uuid == "" then s else Deleting(s, WithoutPolicy(s.prism, uuid))
  }

  /** Failing to delete a category is not an error, failing to look one up is. */
  function CategoriesDeleted(s: Progress, gone: set<string>): Progress {
    if !s.ok then s else Deleting(s, WithoutCategories(s.prism, gone))
  }

  /**
   `deleteVHADomainPCResources`: plans, then the policy, then the spec's categories, of which those in
   `free` go.
   */
  function ResourcesDeleted(p: V.Prism, spec: V.Spec, calls: Calls, free: set<string>): Progress {
    var s := PolicyDeleted(PlansDeleted(Progress(p, calls, true), PlansIn(spec.groups)), spec.policy);
    if CategoriesIn(spec.groups) == {} then s else CategoriesDeleted(s, CategoriesIn(spec.groups) * free)
  }

  class PrismCentral {
    var resources: V.Prism
    var calls: Calls

    constructor (resources: V.Prism, calls: Calls)
      ensures this.resources == resources && this.calls == calls
    {
      this.resources, this.calls := resources, calls;
    }

    /** A deletion with its outcome. */
    method Delete(gone: V.Prism) returns (ok: bool)
      modifies this
      ensures Progress(resources, calls, ok) == Deleting(Progress(old(resources), old(calls), true), gone)
    {
      ok := calls.succeed > 0;
      if ok || calls.lastLands { resources := gone; }
      if ok { calls := calls.(succeed := calls.succeed - 1); }
    }

    method DeleteRecoveryPlan(uuid: string) returns (ok: bool)
      requires uuid != ""
      modifies this
      ensures Progress(resources, calls, ok) == PlanDeleted(Progress(old(resources), old(calls), true), uuid)
    {
      ok := Delete(WithoutPlan(resources, uuid));
    }

    method DeleteProtectionPolicy(uuid: string) returns (ok: bool)
      modifies this
      ensures Progress(resources, calls, ok) == PolicyDeleted(Progress(old(resources), old(calls), true), uuid)
    {
      if uuid == "" { return true; }
      ok := Delete(WithoutPolicy(resources, uuid));
    }

    method DeleteCategories(gone: set<string>) returns (ok: bool)
      modifies this
      ensures Progress(resources, calls, ok) == CategoriesDeleted(Progress(old(resources), old(calls), true), gone)
    {
      ok := Delete(WithoutCategories(resources, gone));
    }
  }

  lemma {:induction false} PlansDeletedJoin(s: Progress, a: seq<string>, b: seq<string>)
    ensures PlansDeleted(s, a + b) == PlansDeleted(PlansDeleted(s, a), b)
  {
    if b == [] {
      assert a + b == a;
    } else {
      var n := |b| - 1;
      assert (a + b)[..|a| + n] == a + b[..n];
      PlansDeletedJoin(s, a, b[..n]);
    }
  }

  lemma {:induction false} PlansDeletedFail(s: Progress, plans: seq<string>)
    requires !s.ok
    ensures PlansDeleted(s, plans) == s
  {
    if plans != [] {
      PlansDeletedFail(s, plans[..|plans| - 1]);
    }
  }

  lemma {:induction false} GroupsFail(s: Progress, groups: seq<V.MovementGroup>, g: nat)
    requires g <= |groups| && !PlansDeleted(s, PlansIn(groups[..g])).ok
    ensures PlansDeleted(s, PlansIn(groups)) == PlansDeleted(s, PlansIn(groups[..g]))
  {
    if g < |groups| {
      var n := |groups| - 1;
      assert groups[..n][..g] == groups[..g];
      GroupsFail(s, groups[..n], g);
      PlansDeletedJoin(s, PlansIn(groups[..n]), GroupPlans(groups[n].plans));
      PlansDeletedFail(PlansDeleted(s, PlansIn(groups[..n])), GroupPlans(groups[n].plans));
    } else {
      assert groups[..g] == groups;
    }
  }

  /** The plans of one group. */
  method DeleteGroupPlans(prism: PrismCentral, plans: seq<V.CategoryPlan>) returns (ok: bool)
    modifies prism
    ensures Progress(prism.resources, prism.calls, ok)
         == PlansDeleted(Progress(old(prism.resources), old(prism.calls), true), GroupPlans(plans))
  {
    ghost var start := Progress(prism.resources, prism.calls, true);
    for i := 0 to |plans|
      invariant Progress(prism.resources, prism.calls, true) == PlansDeleted(start, GroupPlans(plans[..i]))
    {
      GroupPlansNext(plans, i);
      PlansDeletedJoin(start, GroupPlans(plans[..i]), [plans[i].plan]);
      ghost var before := PlansDeleted(start, GroupPlans(plans[..i]));
      assert PlansDeleted(before, [plans[i].plan]) == PlanDeleted(before, plans[i].plan) by {
        assert [plans[i].plan][..0] == [];
      }
      if plans[i].plan == "" { continue; }
      ok := prism.DeleteRecoveryPlan(plans[i].plan);
      if !ok {
        GroupPlansSplit(plans, i + 1);
        PlansDeletedJoin(start, GroupPlans(plans[..i + 1]), GroupPlans(plans[i + 1..]));
        PlansDeletedFail(PlansDeleted(start, GroupPlans(plans[..i + 1])), GroupPlans(plans[i + 1..]));
        return;
      }
    }
    assert plans[..|plans|] == plans;
    return true;
  }

  lemma GroupPlansNext(plans: seq<V.CategoryPlan>, i: nat)
    requires i < |plans|
    ensures GroupPlans(plans[..i + 1]) == GroupPlans(plans[..i]) + [plans[i].plan]
  {
    assert plans[..i + 1][..i] == plans[..i];
  }

  lemma {:induction false} GroupPlansSplit(plans: seq<V.CategoryPlan>, i: nat)
    requires i <= |plans|
    ensures GroupPlans(plans) == GroupPlans(plans[..i]) + GroupPlans(plans[i..])
  {
    if i == |plans| {
      assert plans[..i] == plans && plans[i..] == [];
    } else {
      var n := |plans| - 1;
      GroupPlansSplit(plans[..n], i);
      assert plans[..n][..i] == plans[..i] && plans[..n][i..] == plans[i..][..n - i];
    }
  }

  method DeleteRecoveryPlans(prism: PrismCentral, groups: seq<V.MovementGroup>) returns (ok: bool)
    modifies prism
    ensures Progress(prism.resources, prism.calls, ok)
         == PlansDeleted(Progress(old(prism.resources), old(prism.calls), true), PlansIn(groups))
  {
    ghost var start := Progress(prism.resources, prism.calls, true);
    for g := 0 to |groups|
      invariant Progress(prism.resources, prism.calls, true) == PlansDeleted(start, PlansIn(groups[..g]))
    {
      assert groups[..g + 1][..g] == groups[..g];
      PlansDeletedJoin(start, PlansIn(groups[..g]), GroupPlans(groups[g].plans));
      ok := DeleteGroupPlans(prism, groups[g].plans);
      if !ok {
        GroupsFail(start, groups, g + 1);
        return;
      }
    }
    assert groups[..|groups|] == groups;
    return true;
  }

  method DeletePcResources(prism: PrismCentral, spec: V.Spec, free: set<string>) returns (ok: bool)
    modifies prism
    ensures Progress(prism.resources, prism.calls, ok)
        == ResourcesDeleted(old(prism.resources), spec, old(prism.calls), free)
  {
    ok := DeleteRecoveryPlans(prism, spec.groups);
    if !ok { return; }
    ok := prism.DeleteProtectionPolicy(spec.policy);
    if !ok || CategoriesIn(spec.groups) == {} { return; }
    ok := prism.DeleteCategories(CategoriesIn(spec.groups) * free);
  }

  // ---------- ownership ----------

  /** An owner reference; its API version is "group/version", or a version alone. */
  datatype OwnerRef = OwnerRef(kind: string, name: string, apiVersion: string)

  const CLUSTER_KIND := "NutanixCluster"
  const INFRA_GROUP := "infrastructure.cluster.x-k8s.io"

  function Slashes(s: string): nat {
    if s == "" then 0 else Slashes(s[..|s| - 1]) + if s[|s| - 1] == '/' then 1 else 0
  }

  /** The group that `schema.ParseGroupVersion` reads off; an error when there is more than one slash. */
  function GroupOf(apiVersion: string): Result<string> {
    if Slashes(apiVersion) > 1 then Err else Ok(BeforeSlash(apiVersion))
  }

  /** What comes before the first slash; nothing if there is none. */
  function BeforeSlash(s: string): string {
    if s == "" || '/' !in s then "" else if s[0] == '/' then "" else [s[0]] + BeforeSlash(s[1..])
  }

  predicate Refers(r: OwnerRef, cluster: string) {
    r.kind == CLUSTER_KIND && r.name == cluster && GroupOf(r.apiVersion) == Ok(INFRA_GROUP)
  }

  predicate IsOwned(refs: seq<OwnerRef>, cluster: string) {
    exists i :: 0 <= i < |refs| && Refers(refs[i], cluster)
  }

  /** A vHADomain as the cluster controller lists it. */
  datatype ListedDomain = ListedDomain(name: string, deleting: bool, owners: seq<OwnerRef>)

  function OwnedOf(ds: seq<ListedDomain>, cluster: string): seq<ListedDomain> {
    if ds == [] then []
    else OwnedOf(ds[..|ds| - 1], cluster) + if IsOwned(ds[|ds| - 1].owners, cluster) then [ds[|ds| - 1]] else []
  }

  method GetOwnedVhaDomains(ds: seq<ListedDomain>, cluster: string) returns (owned: seq<ListedDomain>)
    ensures owned == OwnedOf(ds, cluster)
  {
    owned := [];
    for i := 0 to |ds|
      invariant owned == OwnedOf(ds[..i], cluster)
    {
      assert ds[..i + 1][..i] == ds[..i];
      var refs := ds[i].owners;
      var mine := false;
      for j := 0 to |refs|
        invariant !mine
        invariant forall k :: 0 <= k < j ==> !Refers(refs[k], cluster)
      {
        if refs[j].kind != CLUSTER_KIND || refs[j].name != cluster { continue; }
        var group := GroupOf(refs[j].apiVersion);
        if group.Err? { continue; }
        if group.value == INFRA_GROUP {
          mine := true;
          break;
        }
      }
      if mine { owned := owned + [ds[i]]; }
    }
    assert ds[..|ds|] == ds;
  }

  lemma {:induction false} OwnedOfMembers(ds: seq<ListedDomain>, cluster: string, d: ListedDomain)
    ensures d in OwnedOf(ds, cluster) <==> d in ds && IsOwned(d.owners, cluster)
  {
    if ds != [] {
      OwnedOfMembers(ds[..|ds| - 1], cluster, d);
      assert ds == ds[..|ds| - 1] + [ds[|ds| - 1]];
    }
  }

  /** What the deletion of a NutanixCluster comes to in one reconcile. */
  datatype ClusterAction = WaitsForMachines | DeletesDomains(names: seq<string>, all: bool) | Releases | Fails

  /** The domains that a pass asks to delete, of the first `calls` that succeed. */
  function ToDelete(owned: seq<ListedDomain>): seq<string> {
    if owned == [] then []
    else ToDelete(owned[..|owned| - 1]) + if owned[|owned| - 1].deleting then [] else [owned[|owned| - 1].name]
  }

  /** What one reconcile of a deleting NutanixCluster meets: two listings, and what succeeds after them. */
  datatype Sight = Sight(machines: Result<nat>, domains: Result<seq<ListedDomain>>, calls: nat, cleanupOk: bool)

  function ClusterPass(s: Sight, cluster: string): ClusterAction {
    if s.machines.Err? then Fails
    else if s.machines.value > 0 then WaitsForMachines
    else if s.domains.Err? then Fails
    else
      var owned := OwnedOf(s.domains.value, cluster);
      if owned != [] then
        if |ToDelete(owned)| <= s.calls then DeletesDomains(ToDelete(owned), true)
        else DeletesDomains(ToDelete(owned)[..s.calls], false)
      else if s.cleanupOk then Releases
      else Fails
  }

  lemma ToDeleteNext(owned: seq<ListedDomain>, i: nat)
    requires i < |owned|
    ensures ToDelete(owned[..i + 1]) == ToDelete(owned[..i]) + if owned[i].deleting then [] else [owned[i].name]
  {
    assert owned[..i + 1][..i] == owned[..i];
  }

  lemma {:induction false} ToDeletePrefix(owned: seq<ListedDomain>, i: nat)
    requires i <= |owned|
    ensures ToDelete(owned[..i]) <= ToDelete(owned)
  {
    if i < |owned| {
      assert owned[..|owned| - 1][..i] == owned[..i];
      ToDeletePrefix(owned[..|owned| - 1], i);
    } else {
      assert owned[..i] == owned;
    }
  }

  /** `NutanixClusterReconciler.reconcileDelete`. */
  method ReconcileClusterDelete(s: Sight, cluster: string) returns (action: ClusterAction)
    ensures action == ClusterPass(s, cluster)
  {
    if s.machines.Err? { return Fails; }
    if s.machines.value > 0 { return WaitsForMachines; }
    if s.domains.Err? { return Fails; }
    var owned := GetOwnedVhaDomains(s.domains.value, cluster);
    if |owned| > 0 {
      var names: seq<string> := [];
      for i := 0 to |owned|
        invariant names == ToDelete(owned[..i]) && |names| <= s.calls
      {
        ToDeleteNext(owned, i);
        ToDeletePrefix(owned, i + 1);
        if owned[i].deleting { continue; }
        if |names| == s.calls { return DeletesDomains(names, false); }
        names := names + [owned[i].name];
      }
      assert owned[..|owned|] == owned;
      return DeletesDomains(names, true);
    }
    if !s.cleanupOk { return Fails; }
    return Releases;
  }

  ghost predicate NoneOwned(ds: seq<ListedDomain>, cluster: string) {
    forall d :: d in ds ==> !IsOwned(d.owners, cluster)
  }

  lemma OwnedOfNone(ds: seq<ListedDomain>, cluster: string)
    ensures OwnedOf(ds, cluster) == [] <==> NoneOwned(ds, cluster)
  {
    var owned := OwnedOf(ds, cluster);
    if owned != [] {
      OwnedOfMembers(ds, cluster, owned[0]);
      assert owned[0] in owned;
    }
    forall d | d in ds && IsOwned(d.owners, cluster) ensures owned != [] { OwnedOfMembers(ds, cluster, d); }
  }

  /** The finalizer goes exactly when both listings are read, no machine is left and no domain is owned. */
  lemma ReleaseIff(s: Sight, cluster: string)
    ensures ClusterPass(s, cluster) == Releases
       <==> s.machines == Ok(0) && s.domains.Ok? && NoneOwned(s.domains.value, cluster) && s.cleanupOk
  {
    if s.domains.Ok? { OwnedOfNone(s.domains.value, cluster); }
  }

  lemma {:induction false} ToDeleteMembers(owned: seq<ListedDomain>, name: string)
    ensures name in ToDelete(owned) <==> exists d :: d in owned && !d.deleting && d.name == name
  {
    if owned != [] {
      ToDeleteMembers(owned[..|owned| - 1], name);
      assert owned == owned[..|owned| - 1] + [owned[|owned| - 1]];
    }
  }

  /** A pass whose requests all succeed asks for exactly the owned domains that are not going yet. */
  lemma AsksForOwned(s: Sight, cluster: string, name: string)
    requires ClusterPass(s, cluster).DeletesDomains? && ClusterPass(s, cluster).all
    ensures name in ClusterPass(s, cluster).names
       <==> exists d :: d in s.domains.value && IsOwned(d.owners, cluster) && !d.deleting && d.name == name
  {
    var owned := OwnedOf(s.domains.value, cluster);
    ToDeleteMembers(owned, name);
    forall d ensures d in owned <==> d in s.domains.value && IsOwned(d.owners, cluster) {
      OwnedOfMembers(s.domains.value, cluster, d);
    }
  }

  // ---------- whose domains ----------

  ghost predicate NoSlash(s: string) {
    forall i :: 0 <= i < |s| ==> s[i] != '/'
  }

  lemma {:induction false} CountsNoSlash(s: string)
    ensures Slashes(s) == 0 <==> NoSlash(s)
  {
    if s != "" { CountsNoSlash(s[..|s| - 1]); }
  }

  lemma {:induction false} SlashesJoin(a: string, b: string)
    ensures Slashes(a + b) == Slashes(a) + Slashes(b)
  {
    if b == "" {
      assert a + b == a;
    } else {
      SlashesJoin(a, b[..|b| - 1]);
      assert (a + b)[..|a| + |b| - 1] == a + b[..|b| - 1];
    }
  }

  lemma {:induction false} BeforeSlashIs(a: string, b: string)
    requires NoSlash(a)
    ensures BeforeSlash(a + "/" + b) == a
  {
    var s := a + "/" + b;
    assert s[|a|] == '/';
    if a != "" {
      BeforeSlashIs(a[1..], b);
      assert s[1..] == a[1..] + "/" + b && s[0] == a[0];
      assert a == [a[0]] + a[1..];
    }
  }

  lemma {:induction false} SplitAtSlash(s: string) returns (a: string, b: string)
    requires '/' in s
    ensures s == a + "/" + b && NoSlash(a)
  {
    if s[0] == '/' {
      a, b := "", s[1..];
    } else {
      a, b := SplitAtSlash(s[1..]);
      a := [s[0]] + a;
    }
  }

  lemma HasSlash(a: string, b: string)
    ensures '/' in a + "/" + b
  {
    assert (a + "/" + b)[|a|] == '/';
  }

  /** The API group of "group/version"; a version alone has none, and two slashes make no API version. */
  lemma {:induction false} GroupOfIs(apiVersion: string, group: string)
    requires group != "" && NoSlash(group)
    ensures GroupOf(apiVersion) == Ok(group)
        <==> exists version :: NoSlash(version) && apiVersion == group + "/" + version
  {
    if '/' in apiVersion {
      var a, b := SplitAtSlash(apiVersion);
      BeforeSlashIs(a, b);
      SlashesJoin(a, "/" + b);
      SlashesJoin("/", b);
      assert a + ("/" + b) == apiVersion && "/"[..0] == "" && Slashes("/") == 1;
      CountsNoSlash(a);
      CountsNoSlash(b);
      forall version | NoSlash(version) && apiVersion == group + "/" + version ensures a == group && b == version {
        BeforeSlashIs(group, version);
        assert apiVersion[|a| + 1..] == b && apiVersion[|group| + 1..] == version;
      }
    } else {
      assert BeforeSlash(apiVersion) == "";
      forall version ensures '/' in group + "/" + version { HasSlash(group, version); }
    }
  }

  /** An owner reference to the NutanixCluster of that name, of any version of its API group. */
  ghost predicate RefersTo(r: OwnerRef, cluster: string) {
    && r.kind == "NutanixCluster" && r.name == cluster
    && exists version :: NoSlash(version) && r.apiVersion == "infrastructure.cluster.x-k8s.io" + "/" + version
  }

  lemma {:induction false} RefersIff(r: OwnerRef, cluster: string)
    ensures Refers(r, cluster) <==> RefersTo(r, cluster)
  {
    var group := "infrastructure.cluster.x-k8s.io";
    assert group == INFRA_GROUP && NoSlash(group);
    GroupOfIs(r.apiVersion, group);
  }

  lemma {:induction false} OwnedIff(refs: seq<OwnerRef>, cluster: string)
    ensures IsOwned(refs, cluster) <==> exists r :: r in refs && RefersTo(r, cluster)
  {
    if i: nat :| i < |refs| && Refers(refs[i], cluster) {
      RefersIff(refs[i], cluster);
      assert refs[i] in refs;
    }
    if r :| r in refs && RefersTo(r, cluster) {
      RefersIff(r, cluster);
      var i :| 0 <= i < |refs| && refs[i] == r;
      assert Refers(refs[i], cluster);
    }
  }

  /** A pass asks for no domain but one that refers to this cluster, and for none while a machine is left. */
  lemma {:induction false} OnlyOwnAsked(s: Sight, cluster: string, name: string)
    requires ClusterPass(s, cluster).DeletesDomains? && name in ClusterPass(s, cluster).names
    ensures s.machines == Ok(0) && s.domains.Ok?
    ensures exists d, r ::
        d in s.domains.value && d.name == name && !d.deleting && r in d.owners && RefersTo(r, cluster)
  {
    var owned := OwnedOf(s.domains.value, cluster);
    assert name in ToDelete(owned);
    ToDeleteMembers(owned, name);
    var d :| d in owned && !d.deleting && d.name == name;
    OwnedOfMembers(s.domains.value, cluster, d);
    OwnedIff(d.owners, cluster);
  }

  /** It waits exactly while machines are left. */
  lemma WaitsIff(s: Sight, cluster: string)
    ensures ClusterPass(s, cluster).WaitsForMachines? <==> s.machines.Ok? && s.machines.value > 0
  {
  }

  // ---------- what is deleted, and in which order ----------

  /** `k` has gone. */
  predicate Gone(p: V.Prism, q: V.Prism, k: V.Key) {
    k in p && k !in q
  }

  lemma {:induction false} PlansOnly(s: Progress, plans: seq<string>, k: V.Key)
    ensures k in PlansDeleted(s, plans).prism ==> k in s.prism && PlansDeleted(s, plans).prism[k] == s.prism[k]
    ensures Gone(s.prism, PlansDeleted(s, plans).prism, k) ==>
              k.Plan? && s.prism[k].uuid in plans && s.prism[k].uuid != ""
    ensures PlansDeleted(s, plans).ok ==>
              s.ok && forall l :: l in PlansDeleted(s, plans).prism && l.Plan? ==>
                PlansDeleted(s, plans).prism[l].uuid == "" || PlansDeleted(s, plans).prism[l].uuid !in plans
  {
    if plans != [] {
      PlansOnly(s, plans[..|plans| - 1], k);
      assert plans == plans[..|plans| - 1] + [plans[|plans| - 1]];
    }
  }

  /** No plan of the spec is left. */
  ghost predicate NoPlanLeft(q: V.Prism, spec: V.Spec) {
    forall k :: k in q && k.Plan? && q[k].uuid != "" ==> q[k].uuid !in PlansIn(spec.groups)
  }

  ghost predicate NoPolicyLeft(q: V.Prism, spec: V.Spec) {
    forall k :: k in q && k.Policy? && q[k].uuid != "" ==> q[k].uuid != spec.policy
  }

  /** The category of one of the spec's slots. */
  ghost predicate IsSlots(spec: V.Spec, value: string) {
    exists g, i ::
      0 <= g < |spec.groups| && 0 <= i < |spec.groups[g].plans| && spec.groups[g].plans[i].category == value
  }

  /**
   However far a deletion gets: nothing goes but the plans, the policy and free categories, all of them the
   spec's; the policy goes only after the last plan, and a category only after both.
   */
  lemma {:induction false} DeletionOrder(p: V.Prism, spec: V.Spec, calls: Calls, free: set<string>, k: V.Key)
    requires Gone(p, ResourcesDeleted(p, spec, calls, free).prism, k)
    ensures match k
            case Plan(_) => p[k].uuid in PlansIn(spec.groups) && p[k].uuid != ""
            case Policy(_) =>
              p[k].uuid == spec.policy && NoPlanLeft(ResourcesDeleted(p, spec, calls, free).prism, spec)
            case Category(value) =>
              && value in free && IsSlots(spec, value)
              && NoPlanLeft(ResourcesDeleted(p, spec, calls, free).prism, spec)
              && NoPolicyLeft(ResourcesDeleted(p, spec, calls, free).prism, spec)
  {
    PlansOnly(Progress(p, calls, true), PlansIn(spec.groups), k);
  }

  /** What stays is not changed. */
  lemma {:induction false} DeletionKeeps(p: V.Prism, spec: V.Spec, calls: Calls, free: set<string>, k: V.Key)
    requires k in ResourcesDeleted(p, spec, calls, free).prism
    ensures k in p && ResourcesDeleted(p, spec, calls, free).prism[k] == p[k]
  {
    PlansOnly(Progress(p, calls, true), PlansIn(spec.groups), k);
  }

  /** A deletion that succeeds leaves none of the spec's categories that are free to go. */
  lemma {:induction false} CategoriesGo(p: V.Prism, spec: V.Spec, calls: Calls, free: set<string>, value: string)
    requires ResourcesDeleted(p, spec, calls, free).ok && IsSlots(spec, value) && value in free
    ensures V.Category(value) !in ResourcesDeleted(p, spec, calls, free).prism
  {
    assert value in CategoriesIn(spec.groups);
  }

  /** A pass that is cut short asks for the first of the domains that a whole one would ask for. */
  lemma CutShort(s: Sight, cluster: string, whole: Sight)
    requires ClusterPass(s, cluster).DeletesDomains? && !ClusterPass(s, cluster).all
    requires whole == s.(calls := whole.calls) && ClusterPass(whole, cluster).DeletesDomains?
        && ClusterPass(whole, cluster).all
    ensures ClusterPass(s, cluster).names <= ClusterPass(whole, cluster).names
    ensures |ClusterPass(s, cluster).names| == s.calls < |ClusterPass(whole, cluster).names|
  {
  }
}
