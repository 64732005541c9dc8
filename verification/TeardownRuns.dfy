/**
 Tearing a cluster down without leaving replication behind: the handshake between the NutanixCluster
 and its NutanixVirtualHADomains, over whole runs.

 A domain creates Prism Central resources only while its finalizer is persisted, and gives the
 finalizer up only when the resources recorded in its spec are gone; the NutanixCluster gives up its
 own only after it found no machine and no domain that it owns. Each reconcile of a domain is one
 step; the cluster's check and the patch that removes its finalizer are two, with anything between.
 */
module TeardownRuns {
  import opened Wrappers
  import opened Sorting
  import opened Sets
  import opened ClusterTeardown
  import V = VhaResources

  // ---------- the world ----------

  /** A vHADomain as stored; `recorded` remembers that the controller wrote its spec. */
  datatype Domain = Domain(owned: bool, finalizer: bool, deleting: bool, spec: V.Spec, recorded: bool)

  /**
   The API server and Prism Central. `released` is whether the NutanixCluster has lost its finalizer,
   and with that is gone; `cleared` is whether a reconcile is about to remove it. The rest is history:
   whether a domain has become the cluster's since that reconcile looked, every UUID that Prism ever
   gave out, and every UUID that was ever persisted in a spec by the controller.
   */
  datatype World = World(
    clusterDeleting: bool,
    infraDeleting: bool,
    released: bool,
    cleared: bool,
    joinedSince: bool,
    machines: nat,
    domains: map<string, Domain>,
    prism: V.Prism,
    used: set<string>,
    history: set<string>)

  /** What one reconcile of a domain meets; `free` are the categories that Prism lets go. */
  datatype Luck = Luck(
    isReady: bool,
    fds: seq<string>,
    setUp: bool,
    lookups: nat,
    uuids: seq<string>,
    replies: nat,
    calls: Calls,
    free: set<string>,
    patchLands: bool)

  datatype Event =
    | ReconcilesDomain(name: string, luck: Luck)
    | ChecksCluster(cleanupOk: bool)
    | PatchesCluster
    | AddsDomain(name: string, owned: bool, spec: V.Spec)
    | DeletesDomain(name: string)
    | DeletesCluster
    | MachinesChange(machines: nat)
    | PrismLoses(keys: set<V.Key>)

  // ---------- a reconcile of a domain ----------

  /** The domain in memory at the end, and Prism. */
  datatype Pass = Pass(domain: Domain, prism: V.Prism)

  function DomainPass(w: World, name: string, d: Domain, l: Luck): Pass {
    var mine := d.(owned := true);
    if d.deleting then
      if !(w.clusterDeleting && w.infraDeleting) then Pass(mine, w.prism)
      else
        var s := ResourcesDeleted(w.prism, d.spec, l.calls, l.free);
        Pass(if s.ok then mine.(finalizer := false) else mine, s.prism)
    else if !d.finalizer then Pass(mine.(finalizer := true), w.prism)
    else if l.isReady then Pass(mine, w.prism)
    else
      var o := V.Ensured(V.State(w.prism, l.lookups, l.uuids, l.replies), name, V.GroupsIn(d.spec), l.fds, l.setUp);
      Pass(if o.result.Ok? then mine.(spec := o.result.value, recorded := true) else mine, o.state.prism)
  }

  /** `rctx` of a vHADomain: the object in memory, and Prism Central. */
  class VhaDomainContext {
    const name: string
    const clusterDeleting: bool
    const infraDeleting: bool
    var domain: Domain
    var resources: V.Prism

    constructor (name: string, clusterDeleting: bool, infraDeleting: bool, domain: Domain, resources: V.Prism)
      ensures this.name == name && this.clusterDeleting == clusterDeleting && this.infraDeleting == infraDeleting
      ensures this.domain == domain && this.resources == resources
    {
      this.name, this.clusterDeleting, this.infraDeleting := name, clusterDeleting, infraDeleting;
      this.domain, this.resources := domain, resources;
    }

    /** The finalizer goes only after everything that the spec records. */
    method ReconcileDelete(l: Luck) returns (ok: bool)
      modifies this
      ensures ok <==>
                clusterDeleting && infraDeleting
                  && ResourcesDeleted(old(resources), old(domain).spec, l.calls, l.free).ok
      ensures domain == if ok then old(domain).(finalizer := false) else old(domain)
      ensures resources == if !clusterDeleting || !infraDeleting then old(resources)
                           else ResourcesDeleted(old(resources), old(domain).spec, l.calls, l.free).prism
    {
      if !clusterDeleting || !infraDeleting { return false; }
      var prism := new ClusterTeardown.PrismCentral(resources, l.calls);
      ok := DeletePcResources(prism, domain.spec, l.free);
      resources := prism.resources;
      if !ok { return; }
      domain := domain.(finalizer := false);
    }

    /** The finalizer comes first, in a reconcile of its own. */
    method ReconcileNormal(l: Luck) returns (ok: bool)
      modifies this
      ensures !old(domain).finalizer ==> domain == old(domain).(finalizer := true)
      ensures !old(domain).finalizer || l.isReady ==> ok && resources == old(resources)
      ensures old(domain).finalizer && l.isReady ==> domain == old(domain)
      ensures old(domain).finalizer && !l.isReady ==>
                var o := V.Ensured(V.State(old(resources), l.lookups, l.uuids, l.replies), name,
                  V.GroupsIn(old(domain).spec), l.fds, l.setUp);
                && resources == o.state.prism && (ok <==> o.result.Ok?)
                && domain == if ok then old(domain).(spec := o.result.value, recorded := true) else old(domain)
    {
      if !domain.finalizer {
        domain := domain.(finalizer := true);
        return true;
      }
      if l.isReady { return true; }
      var prism := new V.PrismCentral(V.State(resources, l.lookups, l.uuids, l.replies));
      var spec := V.EnsurePcResources(prism, name, V.GroupsIn(domain.spec), l.fds, l.setUp);
      resources := prism.resources;
      if spec.Err? { return false; }
      domain := domain.(spec := spec.value, recorded := true);
      return true;
    }

    /** `Reconcile` up to its patch; a failed pass gets its original spec back. */
    method Reconcile(l: Luck, ghost w: World)
      requires w.prism == resources && w.clusterDeleting == clusterDeleting && w.infraDeleting == infraDeleting
      modifies this
      ensures Pass(domain, resources) == DomainPass(w, name, old(domain), l)
    {
      var original := domain;
      domain := domain.(owned := true);
      if domain.deleting {
        var _ := ReconcileDelete(l);
        return;
      }
      var ok := ReconcileNormal(l);
      if !ok { domain := domain.(spec := original.spec); }
    }
  }

  /** An object that is being deleted goes with its last finalizer. */
  function Stored(domains: map<string, Domain>, name: string, d: Domain): map<string, Domain> {
    if d.deleting && !d.finalizer then domains - {name} else domains[name := d]
  }

  function AfterDomain(w: World, name: string, l: Luck): World {
    if name !in w.domains || w.released then w
    else
      var d := w.domains[name];
      var p := DomainPass(w, name, d, l);
      var v := w.(prism := p.prism, used := w.used + Elements(l.uuids));
      if !l.patchLands then v
      else
        v.(domains := Stored(w.domains, name, p.domain),
           joinedSince := w.joinedSince || !d.owned,
           history := w.history + if p.domain.recorded then Recorded(p.domain.spec) else {})
  }

  // ---------- the other steps ----------

  predicate NobodyOwned(domains: map<string, Domain>) {
    forall name :: name in domains ==> !domains[name].owned
  }

  /** What an API server does with a delete request. */
  function Deleted(domains: map<string, Domain>, name: string): map<string, Domain> {
    if name !in domains then domains else Stored(domains, name, domains[name].(deleting := true))
  }

  function AllOwnedDeleted(domains: map<string, Domain>): map<string, Domain> {
    map name | name in domains && !(domains[name].owned && !domains[name].finalizer) ::
      if domains[name].owned then domains[name].(deleting := true) else domains[name]
  }

  /** The cluster's reconcile, up to its patch: as `ClusterTeardown.ReleaseIff` has it. */
  function AfterCheck(w: World, cleanupOk: bool): World {
    if w.released then w
    else if !w.infraDeleting || w.machines > 0 then w.(cleared := false)
    else if !NobodyOwned(w.domains) then w.(cleared := false, domains := AllOwnedDeleted(w.domains))
    else w.(cleared := cleanupOk, joinedSince := false)
  }

  function Next(w: World, e: Event): World {
    match e
    case ReconcilesDomain(name, l) => AfterDomain(w, name, l)
    case ChecksCluster(cleanupOk) => AfterCheck(w, cleanupOk)
    case PatchesCluster => if w.cleared then w.(released := true) else w
    case AddsDomain(name, owned, spec) =>
      if name in w.domains then w
      else w.(domains := w.domains[name := Domain(owned, false, false, spec, false)], joinedSince := w.joinedSince
        || (owned && !w.released))
    case DeletesDomain(name) => w.(domains := Deleted(w.domains, name))
    case DeletesCluster => w.(clusterDeleting := true, infraDeleting := true)
    case MachinesChange(machines) => w.(machines := machines)
    case PrismLoses(keys) => w.(prism := w.prism - keys)
  }

  /** Prism gives out new UUIDs only. */
  ghost predicate Allowed(w: World, e: Event) {
    e.ReconcilesDomain? ==>
      Distinct(e.luck.uuids) && "" !in e.luck.uuids && forall u :: u in e.luck.uuids ==> u !in w.used
  }

  function Run(w: World, events: seq<Event>): World {
    if events == [] then w else Next(Run(w, events[..|events| - 1]), events[|events| - 1])
  }

  ghost predicate AllowedRun(w: World, events: seq<Event>) {
    forall i :: 0 <= i < |events| ==> Allowed(Run(w, events[..i]), events[i])
  }

  ghost predicate Start(w: World) {
    && !w.released && !w.cleared && w.domains == map[] && w.history == {} && PrismOk(w.prism, w.used)
  }

  // ---------- what every step keeps ----------

  /** No UUID names two resources. */
  ghost predicate PrismOk(p: V.Prism, used: set<string>) {
    && (forall k :: k in p ==> p[k].uuid in used && p[k].uuid != "")
    && (forall k, l :: k in p && l in p && p[k].uuid == p[l].uuid ==> k == l)
  }

  predicate IsReplication(k: V.Key) {
    k.Plan? || k.Policy?
  }

  /** A plan or policy of that UUID still exists. */
  ghost predicate Live(p: V.Prism, uuid: string) {
    exists k :: k in p && IsReplication(k) && p[k].uuid == uuid
  }

  /** Where the resources of a spec are, as long as they live. */
  ghost predicate Placed(p: V.Prism, name: string, spec: V.Spec) {
    var groups, plans := V.GroupsIn(spec), PlansIn(spec.groups);
    var needs := V.PlanNeeds(name, groups);
    && V.GroupNames(groups) == groups
    && |plans| == |needs|
    && At(p, V.Policy(V.PolicyName(name)), spec.policy)
    && forall j :: 0 <= j < |plans| ==> At(p, needs[j].key, plans[j])
  }

  ghost predicate At(p: V.Prism, k: V.Key, uuid: string) {
    Live(p, uuid) ==> k in p && p[k].uuid == uuid
  }

  /** The finalizer and the owner come together, before any resource. */
  ghost predicate DomainOk(w: World, name: string, d: Domain) {
    && (d.finalizer ==> d.owned)
    && (d.recorded ==> d.finalizer && Recorded(d.spec) <= w.history && Placed(w.prism, name, d.spec))
  }

  /** A resource on record that still lives is some domain's to delete. */
  ghost predicate Accounted(w: World, uuid: string) {
    exists name :: name in w.domains && w.domains[name].recorded && uuid in Recorded(w.domains[name].spec)
  }

  ghost predicate NothingLeft(w: World) {
    forall uuid :: uuid in w.history ==> !Live(w.prism, uuid)
  }

  ghost predicate NothingRecorded(w: World) {
    forall name :: name in w.domains ==> !w.domains[name].recorded
  }

  ghost predicate Inv(w: World) {
    && PrismOk(w.prism, w.used)
    && w.history <= w.used && "" !in w.history
    && (forall name :: name in w.domains ==> DomainOk(w, name, w.domains[name]))
    && (forall uuid :: uuid in w.history && Live(w.prism, uuid) ==> Accounted(w, uuid))
    && (w.cleared && !w.joinedSince && !w.released ==> NobodyOwned(w.domains))
    && (w.released && !w.joinedSince ==> NothingRecorded(w))
  }

  // ---------- Prism getting smaller ----------

  ghost predicate Shrinks(p: V.Prism, q: V.Prism) {
    forall k :: k in q ==> k in p && q[k] == p[k]
  }

  lemma ShrinkKeeps(p: V.Prism, q: V.Prism, used: set<string>, k: V.Key, uuid: string)
    requires PrismOk(p, used) && Shrinks(p, q)
    ensures PrismOk(q, used)
    ensures Live(q, uuid) ==> Live(p, uuid)
    ensures At(p, k, uuid) ==> At(q, k, uuid)
  {
    if Live(q, uuid) {
      var l :| l in q && IsReplication(l) && q[l].uuid == uuid;
      assert l in p && p[l].uuid == uuid;
    }
  }

  lemma ShrinkKeepsPlaced(p: V.Prism, q: V.Prism, used: set<string>, name: string, spec: V.Spec)
    requires PrismOk(p, used) && Shrinks(p, q) && Placed(p, name, spec)
    ensures Placed(q, name, spec)
  {
    var needs, plans := V.PlanNeeds(name, V.GroupsIn(spec)), PlansIn(spec.groups);
    ShrinkKeeps(p, q, used, V.Policy(V.PolicyName(name)), spec.policy);
    forall j | 0 <= j < |plans| ensures At(q, needs[j].key, plans[j]) {
      ShrinkKeeps(p, q, used, needs[j].key, plans[j]);
    }
  }

  lemma ShrinkKeepsInv(w: World, q: V.Prism)
    requires Inv(w) && Shrinks(w.prism, q)
    ensures Inv(w.(prism := q))
  {
    var v := w.(prism := q);
    ShrinkKeeps(w.prism, q, w.used, V.Policy(""), "");
    forall name | name in v.domains ensures DomainOk(v, name, v.domains[name]) {
      assert DomainOk(w, name, w.domains[name]);
      if w.domains[name].recorded { ShrinkKeepsPlaced(w.prism, q, w.used, name, w.domains[name].spec); }
    }
    forall uuid | uuid in v.history && Live(q, uuid) ensures Accounted(v, uuid) {
      ShrinkKeeps(w.prism, q, w.used, V.Policy(""), uuid);
      assert Accounted(w, uuid);
    }
  }

  // ---------- a domain's resources deleted ----------

  lemma {:induction false} PlansDeletedShrink(s: Progress, plans: seq<string>)
    ensures Shrinks(s.prism, PlansDeleted(s, plans).prism)
    ensures PlansDeleted(s, plans).ok ==> s.ok
    ensures PlansDeleted(s, plans).ok ==> forall k :: k in PlansDeleted(s, plans).prism && k.Plan? ==>
              PlansDeleted(s, plans).prism[k].uuid == "" || PlansDeleted(s, plans).prism[k].uuid !in plans
  {
    if plans != [] {
      PlansDeletedShrink(s, plans[..|plans| - 1]);
      assert plans == plans[..|plans| - 1] + [plans[|plans| - 1]];
    }
  }

  lemma ResourcesDeletedShrink(p: V.Prism, spec: V.Spec, calls: Calls, free: set<string>)
    ensures var s := ResourcesDeleted(p, spec, calls, free);
            && Shrinks(p, s.prism)
            && (s.ok ==> forall k :: k in s.prism && s.prism[k].uuid != "" ==>
                  && (k.Plan? ==> s.prism[k].uuid !in PlansIn(spec.groups))
                  && (k.Policy? ==> s.prism[k].uuid != spec.policy))
  {
    PlansDeletedShrink(Progress(p, calls, true), PlansIn(spec.groups));
  }

  lemma {:induction false} PlanNeedsArePlans(name: string, groups: seq<string>)
    ensures forall j :: 0 <= j < |V.PlanNeeds(name, groups)| ==> V.PlanNeeds(name, groups)[j].key.Plan?
  {
    if groups != [] {
      PlanNeedsArePlans(name, groups[..|groups| - 1]);
    }
  }

  /** The key under which a recorded resource is, if it lives: a plan's for a plan, the policy's for the policy. */
  lemma Home(p: V.Prism, name: string, spec: V.Spec, uuid: string) returns (k: V.Key)
    requires Placed(p, name, spec) && uuid in Recorded(spec)
    ensures At(p, k, uuid) && IsReplication(k)
    ensures k.Plan? ==> uuid in PlansIn(spec.groups)
    ensures k.Policy? ==> uuid == spec.policy
    ensures k in V.Wanted(name, V.GroupsIn(spec))
  {
    var plans, needs := PlansIn(spec.groups), V.PlanNeeds(name, V.GroupsIn(spec));
    if uuid == spec.policy {
      k := V.Policy(V.PolicyName(name));
    } else {
      var j :| 0 <= j < |plans| && plans[j] == uuid;
      PlanNeedsArePlans(name, V.GroupsIn(spec));
      KeysOfMember(needs, j);
      k := needs[j].key;
    }
  }

  lemma {:induction false} KeysOfMember(needs: seq<V.Need>, j: nat)
    requires j < |needs|
    ensures needs[j].key in V.KeysOf(needs)
  {
    if j < |needs| - 1 {
      KeysOfMember(needs[..|needs| - 1], j);
    }
  }

  /** A deletion that succeeds leaves nothing of what the spec records. */
  lemma ResourcesGone(p: V.Prism, used: set<string>, name: string, spec: V.Spec, calls: Calls, free: set<string>,
      uuid: string)
    requires PrismOk(p, used) && Placed(p, name, spec) && uuid in Recorded(spec)
    requires ResourcesDeleted(p, spec, calls, free).ok
    ensures !Live(ResourcesDeleted(p, spec, calls, free).prism, uuid)
  {
    var q := ResourcesDeleted(p, spec, calls, free).prism;
    ResourcesDeletedShrink(p, spec, calls, free);
    PlanNeedsArePlans(name, V.GroupsIn(spec));
    var home := Home(p, name, spec, uuid);
    ShrinkKeeps(p, q, used, home, uuid);
  }

  // ---------- Prism growing ----------

  ghost predicate Fresh(s: V.State) {
    && Distinct(s.uuids) && "" !in s.uuids
    && (forall k :: k in s.prism ==> s.prism[k].uuid !in s.uuids)
    && (forall k, l :: k in s.prism && l in s.prism && s.prism[k].uuid == s.prism[l].uuid ==> k == l)
  }

  /** Old resources stay, and new ones have new UUIDs. */
  ghost predicate Grows(s: V.State, t: V.State) {
    && Fresh(t)
    && (forall u :: u in t.uuids ==> u in s.uuids)
    && (forall k :: k in s.prism ==> k in t.prism && t.prism[k] == s.prism[k])
    && (forall k :: k in t.prism && k !in s.prism ==> t.prism[k].uuid in s.uuids)
  }

  lemma GrowsOn(a: V.State, b: V.State, c: V.State)
    requires Grows(a, b) && Grows(b, c)
    ensures Grows(a, c)
  {
  }

  lemma CreatingGrows(s: V.State, k: V.Key, covers: seq<string>)
    requires Fresh(s) && k !in s.prism
    ensures Grows(s, V.Creating(s, k, covers).state)
  {
  }

  lemma ObtainedGrows(s: V.State, k: V.Key, covers: seq<string>)
    requires Fresh(s)
    ensures Grows(s, V.Obtained(s, k, covers).state)
  {
    if s.lookups > 0 && k !in s.prism { CreatingGrows(s.(lookups := s.lookups - 1), k, covers); }
  }

  lemma {:induction false} ObtainedAllGrows(s: V.State, needs: seq<V.Need>)
    requires Fresh(s)
    ensures Grows(s, V.ObtainedAll(s, needs).state)
  {
    if needs != [] {
      var front := V.ObtainedAll(s, needs[..|needs| - 1]);
      var last := needs[|needs| - 1];
      ObtainedAllGrows(s, needs[..|needs| - 1]);
      if front.result.Ok? && last.nameFits {
        ObtainedGrows(front.state, last.key, last.covers);
        GrowsOn(s, front.state, V.Obtained(front.state, last.key, last.covers).state);
      }
    }
  }

  lemma PolicyForGrows(s: V.State, name: string, groups: seq<string>)
    requires Fresh(s)
    ensures Grows(s, V.PolicyFor(s, name, groups).state)
  {
    var k := V.Policy(V.PolicyName(name));
    if s.lookups > 0 && k !in s.prism {
      var t := s.(lookups := s.lookups - 1);
      var tags := V.ObtainedAll(t, V.CategoryNeeds(name, groups));
      ObtainedAllGrows(t, V.CategoryNeeds(name, groups));
      V.CategoryKeys(name, groups);
      V.ObtainedKeepsPolicies(t, V.CategoryNeeds(name, groups), k);
      if tags.result.Ok? {
        CreatingGrows(tags.state, k, tags.result.value);
        GrowsOn(t, tags.state, V.Creating(tags.state, k, tags.result.value).state);
      }
    }
  }

  lemma EnsuredGrows(s: V.State, name: string, given: seq<string>, fds: seq<string>, setUp: bool)
    requires Fresh(s)
    ensures Grows(s, V.Ensured(s, name, given, fds, setUp).state)
  {
    var groups := V.GroupNames(given);
    var c := V.ObtainedAll(s, V.CategoryNeeds(name, groups)).state;
    ObtainedAllGrows(s, V.CategoryNeeds(name, groups));
    PolicyForGrows(c, name, groups);
    var p := V.PolicyFor(c, name, groups).state;
    GrowsOn(s, c, p);
    ObtainedAllGrows(p, V.PlanNeeds(name, groups));
    GrowsOn(s, p, V.ObtainedAll(p, V.PlanNeeds(name, groups)).state);
  }

  /** For UUIDs that were in use before, growth changes nothing. */
  lemma GrowthKeeps(w: World, s: V.State, t: V.State, k: V.Key, uuid: string)
    requires PrismOk(w.prism, w.used) && s.prism == w.prism && Fresh(s) && Grows(s, t)
    requires forall u :: u in s.uuids ==> u !in w.used
    requires uuid in w.used || uuid == ""
    ensures PrismOk(t.prism, w.used + Elements(s.uuids))
    ensures Live(t.prism, uuid) <==> Live(w.prism, uuid)
    ensures At(w.prism, k, uuid) ==> At(t.prism, k, uuid)
  {
    if Live(t.prism, uuid) {
      var l :| l in t.prism && IsReplication(l) && t.prism[l].uuid == uuid;
      assert l in w.prism;
    }
    if Live(w.prism, uuid) {
      var l :| l in w.prism && IsReplication(l) && w.prism[l].uuid == uuid;
      assert l in t.prism && t.prism[l].uuid == uuid;
    }
  }

  // ---------- the new spec ----------

  lemma {:induction false} GroupPlansTwo(domain: string, group: string, fds: seq<string>, a: string, b: string)
    requires |fds| == 2
    ensures GroupPlans(V.GroupOf(domain, group, fds, a, b).plans) == [a, b]
  {
    var plans := V.GroupOf(domain, group, fds, a, b).plans;
    assert plans[..1][..0] == [];
    assert GroupPlans(plans[..1]) == [a];
  }

  /** The plans in a generated spec, read off in order, are the ones it was generated from. */
  lemma {:induction false} PlansOfGroups(domain: string, groups: seq<string>, fds: seq<string>, plans: seq<string>)
    requires |fds| == 2 && |plans| == 2 * |groups|
    ensures PlansIn(V.GroupsOf(domain, groups, fds, plans)) == plans
  {
    if groups != [] {
      var n := |groups| - 1;
      PlansOfGroups(domain, groups[..n], fds, plans[..2 * n]);
      assert V.GroupsOf(domain, groups, fds, plans)[..n] == V.GroupsOf(domain, groups[..n], fds, plans[..2 * n]);
      GroupPlansTwo(domain, groups[n], fds, plans[2 * n], plans[2 * n + 1]);
      assert plans == plans[..2 * n] + [plans[2 * n], plans[2 * n + 1]];
    }
  }

  /** A spec that describes a complete state has its resources in their places. */
  lemma NewSpecPlaced(p: V.Prism, used: set<string>, name: string, given: seq<string>, fds: seq<string>)
    requires PrismOk(p, used) && |fds| == 2 && V.Complete(p, name, V.GroupNames(given))
    ensures var spec := V.SpecIn(p, name, V.GroupNames(given), fds);
            && Placed(p, name, spec) && V.GroupsIn(spec) == V.GroupNames(given)
            && PlansIn(spec.groups) == V.Uuids(p, V.PlanNeeds(name, V.GroupNames(given)))
  {
    var groups := V.GroupNames(given);
    var spec := V.SpecIn(p, name, groups, fds);
    var needs := V.PlanNeeds(name, groups);
    assert V.GroupsIn(spec) == groups;
    V.GroupNamesSettle(given);
    PlansOfGroups(name, groups, fds, V.Uuids(p, needs));
    forall j | 0 <= j < |needs| ensures At(p, needs[j].key, PlansIn(spec.groups)[j]) { V.UuidsAt(p, needs, j); }
  }

  lemma {:induction false} NeedOfKey(needs: seq<V.Need>, k: V.Key) returns (j: nat)
    requires k in V.KeysOf(needs)
    ensures j < |needs| && needs[j].key == k
  {
    var n := |needs| - 1;
    if needs[n].key == k { j := n; } else { j := NeedOfKey(needs[..n], k); }
  }

  /** A plan that is needed, or the policy, is recorded by a spec that refers to what is there. */
  lemma SpecRecords(p: V.Prism, used: set<string>, spec: V.Spec, needs: seq<V.Need>, policy: V.Key, k: V.Key)
    requires PrismOk(p, used) && V.Has(p, needs) && policy in p && k in p
    requires PlansIn(spec.groups) == V.Uuids(p, needs) && spec.policy == p[policy].uuid
    requires k == policy || k in V.KeysOf(needs)
    ensures p[k].uuid in Recorded(spec)
  {
    if k != policy {
      var j := NeedOfKey(needs, k);
      V.UuidsAt(p, needs, j);
      assert PlansIn(spec.groups)[j] == p[k].uuid;
    }
  }

  lemma WantedReplication(name: string, groups: seq<string>, k: V.Key)
    requires k in V.Wanted(name, groups) && IsReplication(k)
    ensures k == V.Policy(V.PolicyName(name)) || k in V.KeysOf(V.PlanNeeds(name, groups))
  {
    V.CategoryKeys(name, groups);
  }

  /** A resource in its place is in the new spec. */
  lemma NewSpecRecords(p: V.Prism, used: set<string>, name: string, given: seq<string>, fds: seq<string>, k: V.Key)
    requires PrismOk(p, used) && |fds| == 2 && V.Complete(p, name, V.GroupNames(given))
    requires k in p && IsReplication(k) && k in V.Wanted(name, V.GroupNames(given))
    ensures p[k].uuid in Recorded(V.SpecIn(p, name, V.GroupNames(given), fds))
  {
    var groups := V.GroupNames(given);
    NewSpecPlaced(p, used, name, given, fds);
    WantedReplication(name, groups, k);
    SpecRecords(p, used, V.SpecIn(p, name, groups, fds), V.PlanNeeds(name, groups), V.Policy(V.PolicyName(name)), k);
  }

  lemma NewSpecInUse(p: V.Prism, used: set<string>, name: string, given: seq<string>, fds: seq<string>)
    requires PrismOk(p, used) && |fds| == 2 && V.Complete(p, name, V.GroupNames(given))
    ensures Recorded(V.SpecIn(p, name, V.GroupNames(given), fds)) <= used
  {
    var needs := V.PlanNeeds(name, V.GroupNames(given));
    NewSpecPlaced(p, used, name, given, fds);
    forall j | 0 <= j < |needs| ensures V.Uuids(p, needs)[j] in used { V.UuidsAt(p, needs, j); }
  }

  // ---------- every step keeps the invariant ----------

  lemma AccountedElsewhere(w: World, v: World, uuid: string, name: string)
    requires Accounted(w, uuid)
    requires forall other :: other in w.domains && other != name ==>
        other in v.domains && v.domains[other] == w.domains[other]
    requires name in w.domains && w.domains[name].recorded && uuid in Recorded(w.domains[name].spec) ==>
               name in v.domains && v.domains[name].recorded && uuid in Recorded(v.domains[name].spec)
    ensures Accounted(v, uuid)
  {
    var at :| at in w.domains && w.domains[at].recorded && uuid in Recorded(w.domains[at].spec);
    assert at in v.domains && v.domains[at].recorded && uuid in Recorded(v.domains[at].spec);
  }

  /** A step that touches one domain's metadata only; one without a finalizer may go. */
  lemma MetadataKeepsInv(w: World, name: string, d: Domain, joined: bool)
    requires Inv(w) && name in w.domains
    requires d == w.domains[name].(owned := d.owned, finalizer := d.finalizer, deleting := d.deleting)
    requires (d.finalizer ==> d.owned) && (w.domains[name].finalizer ==> d.finalizer)
    requires joined == (w.joinedSince || (d.owned && !w.domains[name].owned && !w.released))
    ensures Inv(w.(domains := Stored(w.domains, name, d), joinedSince := joined))
  {
    var v := w.(domains := Stored(w.domains, name, d), joinedSince := joined);
    assert DomainOk(w, name, w.domains[name]);
    forall n | n in v.domains ensures DomainOk(v, n, v.domains[n]) {
      assert DomainOk(w, n, w.domains[n]);
    }
    forall uuid | uuid in v.history && Live(v.prism, uuid) ensures Accounted(v, uuid) {
      AccountedElsewhere(w, v, uuid, name);
    }
  }

  /** Giving up the finalizer is safe once nothing recorded is left. */
  lemma GoneKeepsInv(w: World, name: string)
    requires Inv(w) && name in w.domains
    requires forall uuid :: uuid in Recorded(w.domains[name].spec) && w.domains[name].recorded ==> !Live(w.prism, uuid)
    ensures Inv(w.(domains := w.domains - {name}))
  {
    var v := w.(domains := w.domains - {name});
    forall n | n in v.domains ensures DomainOk(v, n, v.domains[n]) { assert DomainOk(w, n, w.domains[n]); }
    forall uuid | uuid in v.history && Live(v.prism, uuid) ensures Accounted(v, uuid) {
      AccountedElsewhere(w, v, uuid, name);
    }
  }

  lemma MoreUsedKeepsInv(w: World, more: set<string>)
    requires Inv(w)
    ensures Inv(w.(used := w.used + more))
  {
    var v := w.(used := w.used + more);
    forall n | n in v.domains ensures DomainOk(v, n, v.domains[n]) { assert DomainOk(w, n, w.domains[n]); }
    forall uuid | uuid in v.history && Live(v.prism, uuid) ensures Accounted(v, uuid) {
      AccountedElsewhere(w, v, uuid, "");
    }
  }

  lemma GrowthKeepsPlaced(w: World, s: V.State, t: V.State, name: string, spec: V.Spec)
    requires PrismOk(w.prism, w.used) && s.prism == w.prism && Fresh(s) && Grows(s, t)
    requires forall u :: u in s.uuids ==> u !in w.used
    requires Recorded(spec) <= w.used && Placed(w.prism, name, spec)
    ensures Placed(t.prism, name, spec)
  {
    var plans, needs := PlansIn(spec.groups), V.PlanNeeds(name, V.GroupsIn(spec));
    if spec.policy != "" { assert spec.policy in Recorded(spec); }
    GrowthKeeps(w, s, t, V.Policy(V.PolicyName(name)), spec.policy);
    forall j | 0 <= j < |plans| ensures At(t.prism, needs[j].key, plans[j]) {
      if plans[j] != "" { PlanRecorded(spec, j); }
      GrowthKeeps(w, s, t, needs[j].key, plans[j]);
    }
  }

  lemma PlanRecorded(spec: V.Spec, j: nat)
    requires j < |PlansIn(spec.groups)| && PlansIn(spec.groups)[j] != ""
    ensures PlansIn(spec.groups)[j] in Recorded(spec)
  {
  }

  /** Prism may grow at any time. */
  lemma GrowthKeepsInv(w: World, s: V.State, t: V.State)
    requires Inv(w) && !w.released && s.prism == w.prism && Fresh(s) && Grows(s, t)
    requires forall u :: u in s.uuids ==> u !in w.used
    ensures Inv(w.(prism := t.prism, used := w.used + Elements(s.uuids)))
  {
    var v := w.(prism := t.prism, used := w.used + Elements(s.uuids));
    GrowthKeeps(w, s, t, V.Policy(""), "");
    forall n | n in v.domains ensures DomainOk(v, n, v.domains[n]) {
      assert DomainOk(w, n, w.domains[n]);
      if w.domains[n].recorded { GrowthKeepsPlaced(w, s, t, n, w.domains[n].spec); }
    }
    forall uuid | uuid in v.history && Live(v.prism, uuid) ensures Accounted(v, uuid) {
      GrowthKeeps(w, s, t, V.Policy(""), uuid);
      AccountedElsewhere(w, v, uuid, "");
    }
  }

  /** A spec written after a successful run accounts for everything that the old one did. */
  lemma RecordingKeepsInv(w: World, name: string, d: Domain, fds: seq<string>)
    requires Inv(w) && name in w.domains && !w.released && |fds| == 2
    requires var was := w.domains[name];
             && was.finalizer && V.Complete(w.prism, name, V.GroupNames(V.GroupsIn(was.spec)))
             && d == was.(spec := V.SpecIn(w.prism, name, V.GroupNames(V.GroupsIn(was.spec)), fds), recorded := true)
    ensures Inv(w.(domains := w.domains[name := d], history := w.history + Recorded(d.spec)))
  {
    var given := V.GroupsIn(w.domains[name].spec);
    NewSpecPlaced(w.prism, w.used, name, given, fds);
    NewSpecInUse(w.prism, w.used, name, given, fds);
    assert DomainOk(w, name, w.domains[name]);
    forall uuid | Live(w.prism, uuid)
      ensures w.domains[name].recorded && uuid in Recorded(w.domains[name].spec) ==> uuid in Recorded(d.spec)
    {
      OldRecordIsNew(w, name, d, fds, uuid);
    }
    RewrittenKeepsInv(w, name, d);
  }

  /** A spec may be replaced by one that is in place and forgets nothing that lives. */
  lemma RewrittenKeepsInv(w: World, name: string, d: Domain)
    requires Inv(w) && name in w.domains && !w.released
    requires d.recorded && d.finalizer && d.owned && w.domains[name].owned
    requires Placed(w.prism, name, d.spec) && Recorded(d.spec) <= w.used
    requires forall uuid ::
        Live(w.prism, uuid) && w.domains[name].recorded && uuid in Recorded(w.domains[name].spec) ==>
               uuid in Recorded(d.spec)
    ensures Inv(w.(domains := w.domains[name := d], history := w.history + Recorded(d.spec)))
  {
    var v := w.(domains := w.domains[name := d], history := w.history + Recorded(d.spec));
    forall n | n in v.domains ensures DomainOk(v, n, v.domains[n]) {
      if n != name { assert DomainOk(w, n, w.domains[n]); }
    }
    forall uuid | uuid in v.history && Live(v.prism, uuid) ensures Accounted(v, uuid) {
      if uuid in Recorded(d.spec) {
        assert v.domains[name].recorded;
      } else {
        AccountedElsewhere(w, v, uuid, name);
      }
    }
  }

  lemma OldRecordIsNew(w: World, name: string, d: Domain, fds: seq<string>, uuid: string)
    requires Inv(w) && name in w.domains && |fds| == 2 && Live(w.prism, uuid)
    requires var was := w.domains[name];
             && V.Complete(w.prism, name, V.GroupNames(V.GroupsIn(was.spec)))
             && d.spec == V.SpecIn(w.prism, name, V.GroupNames(V.GroupsIn(was.spec)), fds)
    ensures w.domains[name].recorded && uuid in Recorded(w.domains[name].spec) ==> uuid in Recorded(d.spec)
  {
    var was := w.domains[name];
    assert DomainOk(w, name, was);
    if was.recorded && uuid in Recorded(was.spec) {
      var k := Home(w.prism, name, was.spec, uuid);
      NewSpecRecords(w.prism, w.used, name, V.GroupsIn(was.spec), fds, k);
    }
  }

  /** The two outcomes of a run of the create path whose patch lands, as worlds. */
  lemma RecordsNew(w: World, v: World, name: string, l: Luck, d: Domain)
    requires name in w.domains && !w.released && l.patchLands && DomainOk(w, name, w.domains[name])
    requires var was := w.domains[name]; !was.deleting && was.finalizer && !l.isReady
    requires var o := V.Ensured(V.State(w.prism, l.lookups, l.uuids, l.replies), name, V.GroupsIn(w.domains[name].spec),
                                l.fds, l.setUp);
             && v == w.(prism := o.state.prism, used := w.used + Elements(l.uuids))
             && o.result.Ok? && d == w.domains[name].(spec := o.result.value, recorded := true)
    ensures AfterDomain(w, name, l) == v.(domains := v.domains[name := d], history := v.history + Recorded(d.spec))
  {
  }

  lemma Unrecorded(w: World, v: World, name: string, l: Luck)
    requires name in w.domains && !w.released && l.patchLands && DomainOk(w, name, w.domains[name])
    requires var was := w.domains[name]; !was.deleting && was.finalizer && !l.isReady
    requires var o := V.Ensured(V.State(w.prism, l.lookups, l.uuids, l.replies), name, V.GroupsIn(w.domains[name].spec),
                                l.fds, l.setUp);
             o.result.Err? && v == w.(prism := o.state.prism, used := w.used + Elements(l.uuids))
    ensures AfterDomain(w, name, l)
         == v.(domains := Stored(v.domains, name, w.domains[name]), joinedSince := v.joinedSince)
  {
    var d := w.domains[name];
    assert w.history + (if d.recorded then Recorded(d.spec) else {}) == w.history;
  }

  lemma EnsuringKeepsInv(w: World, name: string, l: Luck)
    requires Inv(w) && name in w.domains && !w.released && Allowed(w, ReconcilesDomain(name, l))
    requires var d := w.domains[name]; !d.deleting && d.finalizer && !l.isReady
    ensures Inv(AfterDomain(w, name, l))
  {
    var d := w.domains[name];
    var s := V.State(w.prism, l.lookups, l.uuids, l.replies);
    var o := V.Ensured(s, name, V.GroupsIn(d.spec), l.fds, l.setUp);
    assert DomainOk(w, name, d);
    assert Fresh(s);
    EnsuredGrows(s, name, V.GroupsIn(d.spec), l.fds, l.setUp);
    GrowthKeepsInv(w, s, o.state);
    var v := w.(prism := o.state.prism, used := w.used + Elements(l.uuids));
    if l.patchLands {
      if o.result.Ok? {
        V.EnsureCompletes(s, name, V.GroupsIn(d.spec), l.fds, l.setUp);
        RecordingKeepsInv(v, name, d.(spec := o.result.value, recorded := true), l.fds);
        RecordsNew(w, v, name, l, d.(spec := o.result.value, recorded := true));
      } else {
        MetadataKeepsInv(v, name, d, v.joinedSince);
        Unrecorded(w, v, name, l);
      }
    }
  }

  lemma DeletingKeepsInv(w: World, name: string, l: Luck)
    requires Inv(w) && name in w.domains && !w.released && Allowed(w, ReconcilesDomain(name, l))
    requires w.domains[name].deleting && w.clusterDeleting && w.infraDeleting
    ensures Inv(AfterDomain(w, name, l))
  {
    var d := w.domains[name];
    var s := ResourcesDeleted(w.prism, d.spec, l.calls, l.free);
    assert DomainOk(w, name, d);
    ResourcesDeletedShrink(w.prism, d.spec, l.calls, l.free);
    ShrinkKeepsInv(w, s.prism);
    var u := w.(prism := s.prism);
    MoreUsedKeepsInv(u, Elements(l.uuids));
    var v := u.(used := w.used + Elements(l.uuids));
    if l.patchLands {
      if s.ok {
        forall uuid | uuid in Recorded(d.spec) && d.recorded ensures !Live(v.prism, uuid) {
          ResourcesGone(w.prism, w.used, name, d.spec, l.calls, l.free, uuid);
        }
        GoneKeepsInv(v, name);
        ReleasedDomain(w, v, name, l);
      } else {
        MetadataKeepsInv(v, name, d.(owned := true), w.joinedSince || !d.owned);
        KeptDomain(w, v, name, l);
      }
    }
  }

  /** The two outcomes of a deletion, as worlds. */
  lemma ReleasedDomain(w: World, v: World, name: string, l: Luck)
    requires Inv(w) && name in w.domains && !w.released && w.domains[name].deleting && w.clusterDeleting
        && w.infraDeleting && l.patchLands
    requires var s := ResourcesDeleted(w.prism, w.domains[name].spec, l.calls, l.free);
             s.ok && v == w.(prism := s.prism, used := w.used + Elements(l.uuids))
    requires Inv(v.(domains := v.domains - {name}))
    ensures Inv(AfterDomain(w, name, l))
  {
    var d := w.domains[name];
    assert DomainOk(w, name, d);
    var x, y := AfterDomain(w, name, l), v.(domains := v.domains - {name});
    assert x.history == y.history by { if d.recorded { assert Recorded(d.spec) <= w.history; } }
    assert x == y.(joinedSince := w.joinedSince || !d.owned);
  }

  lemma KeptDomain(w: World, v: World, name: string, l: Luck)
    requires Inv(w) && name in w.domains && !w.released && w.domains[name].deleting && w.clusterDeleting
        && w.infraDeleting && l.patchLands
    requires var s := ResourcesDeleted(w.prism, w.domains[name].spec, l.calls, l.free);
             !s.ok && v == w.(prism := s.prism, used := w.used + Elements(l.uuids))
    requires Inv(v.(domains := Stored(v.domains, name, w.domains[name].(owned := true)),
        joinedSince := w.joinedSince || !w.domains[name].owned))
    ensures Inv(AfterDomain(w, name, l))
  {
    var d := w.domains[name];
    assert DomainOk(w, name, d);
    assert AfterDomain(w, name, l).history == v.history by { if d.recorded { assert Recorded(d.spec) <= w.history; } }
  }

  /** All other reconciles of a domain write metadata only. */
  lemma MarkingKeepsInv(w: World, name: string, l: Luck)
    requires Inv(w) && name in w.domains && !w.released && Allowed(w, ReconcilesDomain(name, l))
    requires var d := w.domains[name];
             if d.deleting then !(w.clusterDeleting && w.infraDeleting) else !d.finalizer || l.isReady
    ensures Inv(AfterDomain(w, name, l))
  {
    var d := w.domains[name];
    var p := DomainPass(w, name, d, l);
    assert DomainOk(w, name, d);
    MoreUsedKeepsInv(w, Elements(l.uuids));
    var v := w.(used := w.used + Elements(l.uuids));
    if l.patchLands {
      MetadataKeepsInv(v, name, p.domain, w.joinedSince || !d.owned);
      assert AfterDomain(w, name, l).history == v.history by { if d.recorded { assert Recorded(d.spec) <= w.history; } }
    }
  }

  /** Domains may be marked for deletion, and those without a finalizer go at once. */
  lemma MarkedKeepsInv(w: World, domains: map<string, Domain>, cleared: bool, joined: bool)
    requires Inv(w)
    requires forall n :: n in domains ==> n in w.domains && domains[n] == w.domains[n].(deleting := domains[n].deleting)
    requires forall n :: n in w.domains && n !in domains ==> !w.domains[n].finalizer
    requires if w.released then joined == w.joinedSince else cleared && !joined ==> NobodyOwned(domains)
    ensures Inv(w.(domains := domains, cleared := cleared, joinedSince := joined))
  {
    var v := w.(domains := domains, cleared := cleared, joinedSince := joined);
    forall n | n in w.domains ensures DomainOk(w, n, w.domains[n]) && (w.domains[n].recorded ==> n in domains) {
    }
    forall n | n in v.domains ensures DomainOk(v, n, v.domains[n]) { assert DomainOk(w, n, w.domains[n]); }
    forall uuid | uuid in v.history && Live(v.prism, uuid) ensures Accounted(v, uuid) {
      var at :| at in w.domains && w.domains[at].recorded && uuid in Recorded(w.domains[at].spec);
      assert at in v.domains && v.domains[at].recorded && uuid in Recorded(v.domains[at].spec);
    }
  }

  lemma CheckKeepsInv(w: World, cleanupOk: bool)
    requires Inv(w)
    ensures Inv(AfterCheck(w, cleanupOk))
  {
    if w.released {
    } else if !w.infraDeleting || w.machines > 0 {
      MarkedKeepsInv(w, w.domains, false, w.joinedSince);
    } else if !NobodyOwned(w.domains) {
      MarkedKeepsInv(w, AllOwnedDeleted(w.domains), false, w.joinedSince);
    } else {
      MarkedKeepsInv(w, w.domains, cleanupOk, false);
    }
  }

  /** With no owned domain nothing is on record: the heart of the handshake. */
  lemma NobodyOwnedNothingRecorded(w: World)
    requires Inv(w) && NobodyOwned(w.domains)
    ensures NothingRecorded(w)
  {
    forall n | n in w.domains ensures !w.domains[n].recorded { assert DomainOk(w, n, w.domains[n]); }
  }

  lemma AddingKeepsInv(w: World, name: string, owned: bool, spec: V.Spec)
    requires Inv(w)
    ensures Inv(Next(w, AddsDomain(name, owned, spec)))
  {
    var v := Next(w, AddsDomain(name, owned, spec));
    if name !in w.domains {
      forall n | n in v.domains ensures DomainOk(v, n, v.domains[n]) {
        if n != name { assert DomainOk(w, n, w.domains[n]); }
      }
      forall uuid | uuid in v.history && Live(v.prism, uuid) ensures Accounted(v, uuid) {
        AccountedElsewhere(w, v, uuid, name);
      }
    }
  }

  /** The parts of the world that the invariant is not about. */
  lemma RestKeepsInv(w: World, v: World)
    requires Inv(w)
    requires v == w.(clusterDeleting := v.clusterDeleting, infraDeleting := v.infraDeleting, machines := v.machines,
        released := v.released)
    requires v.released && !w.released ==> w.cleared
    requires w.released ==> v.released
    ensures Inv(v)
  {
    if v.released && !w.released && !w.joinedSince { NobodyOwnedNothingRecorded(w); }
    forall n | n in v.domains ensures DomainOk(v, n, v.domains[n]) { assert DomainOk(w, n, w.domains[n]); }
    forall uuid | uuid in v.history && Live(v.prism, uuid) ensures Accounted(v, uuid) {
      AccountedElsewhere(w, v, uuid, "");
    }
  }

  lemma DomainKeepsInv(w: World, name: string, l: Luck)
    requires Inv(w) && Allowed(w, ReconcilesDomain(name, l))
    ensures Inv(AfterDomain(w, name, l))
  {
    if name in w.domains && !w.released {
      var d := w.domains[name];
      if d.deleting && w.clusterDeleting && w.infraDeleting {
        DeletingKeepsInv(w, name, l);
      } else if !d.deleting && d.finalizer && !l.isReady {
        EnsuringKeepsInv(w, name, l);
      } else {
        MarkingKeepsInv(w, name, l);
      }
    }
  }

  lemma NextKeepsInv(w: World, e: Event)
    requires Inv(w) && Allowed(w, e)
    ensures Inv(Next(w, e))
  {
    match e
    case ReconcilesDomain(name, l) => DomainKeepsInv(w, name, l);
    case ChecksCluster(cleanupOk) => CheckKeepsInv(w, cleanupOk);
    case AddsDomain(name, owned, spec) => AddingKeepsInv(w, name, owned, spec);
    case DeletesDomain(name) =>
      if name in w.domains {
        assert DomainOk(w, name, w.domains[name]);
        MetadataKeepsInv(w, name, w.domains[name].(deleting := true), w.joinedSince);
      }
    case PrismLoses(keys) => ShrinkKeepsInv(w, w.prism - keys);
    case _ => RestKeepsInv(w, Next(w, e));
  }

  lemma {:induction false} RunKeepsInv(w: World, events: seq<Event>)
    requires Start(w) && AllowedRun(w, events)
    ensures Inv(Run(w, events))
  {
    if events != [] {
      var n := |events| - 1;
      assert forall i :: 0 <= i < n ==> events[..n][..i] == events[..i];
      RunKeepsInv(w, events[..n]);
      NextKeepsInv(Run(w, events[..n]), events[n]);
    }
  }

  // ---------- the promise ----------

  /** No domain has anything on record that still exists in Prism. */
  ghost predicate RecordsNothingLive(w: World) {
    forall name, uuid :: name in w.domains && w.domains[name].recorded && uuid in Recorded(w.domains[name].spec) ==>
      !Live(w.prism, uuid)
  }

  /**
   Over every run, at every moment: nothing that was ever on record is left in Prism if and only if
   nothing is left of what the domains have on record now.
   */
  lemma {:induction false} NothingLeftIff(w: World, events: seq<Event>)
    requires Start(w) && AllowedRun(w, events)
    ensures NothingLeft(Run(w, events)) <==> RecordsNothingLive(Run(w, events))
  {
    RunKeepsInv(w, events);
    LeftIsRecorded(Run(w, events));
  }

  lemma LeftIsRecorded(v: World)
    requires Inv(v)
    ensures NothingLeft(v) <==> RecordsNothingLive(v)
  {
    if NothingLeft(v) {
      forall name, uuid | name in v.domains && v.domains[name].recorded && uuid in Recorded(v.domains[name].spec)
        ensures !Live(v.prism, uuid)
      {
        assert DomainOk(v, name, v.domains[name]);
      }
    }
    if RecordsNothingLive(v) {
      forall uuid | Accounted(v, uuid) ensures !Live(v.prism, uuid) {
        var at :| at in v.domains && v.domains[at].recorded && uuid in Recorded(v.domains[at].spec);
      }
    }
  }

  /**
   So once the NutanixCluster is gone, no plan or policy that any of its domains ever had on record is
   left in Prism, unless a domain became the cluster's between its last look and its patch.
   */
  lemma {:induction false} TeardownLeavesNothing(w: World, events: seq<Event>)
    requires Start(w) && AllowedRun(w, events)
    requires Run(w, events).released && !Run(w, events).joinedSince
    ensures NothingLeft(Run(w, events))
  {
    RunKeepsInv(w, events);
    NothingLeftIff(w, events);
  }

  /** Resources are on record only for domains that hold their finalizer, and so are owned. */
  lemma {:induction false} RecordedHoldsFinalizer(w: World, events: seq<Event>, uuid: string)
    requires Start(w) && AllowedRun(w, events)
    requires uuid in Run(w, events).history && Live(Run(w, events).prism, uuid)
    ensures var v := Run(w, events);
            exists name :: name in v.domains && uuid in Recorded(v.domains[name].spec)
              && v.domains[name].finalizer && v.domains[name].owned
  {
    var v := Run(w, events);
    RunKeepsInv(w, events);
    assert Accounted(v, uuid);
    var at :| at in v.domains && v.domains[at].recorded && uuid in Recorded(v.domains[at].spec);
    assert DomainOk(v, at, v.domains[at]);
  }

  // ---------- the cluster's look is its reconcile ----------

  /** A listing of the vHADomains as they are stored. */
  ghost predicate Lists(ds: seq<ListedDomain>, cluster: string, w: World) {
    && (forall d :: d in ds ==> d.name in w.domains && Describes(d, cluster, w.domains[d.name]))
    && (forall name :: name in w.domains ==> exists d :: d in ds && d.name == name)
  }

  predicate Describes(d: ListedDomain, cluster: string, stored: Domain) {
    (IsOwned(d.owners, cluster) <==> stored.owned) && d.deleting == stored.deleting
  }

  /** The reconcile reads both listings as they are. */
  ghost predicate Sees(s: Sight, cluster: string, w: World) {
    s.machines == Ok(w.machines) && s.domains.Ok? && Lists(s.domains.value, cluster, w)
  }

  lemma ListsNoneOwned(ds: seq<ListedDomain>, cluster: string, w: World)
    requires Lists(ds, cluster, w)
    ensures NoneOwned(ds, cluster) <==> NobodyOwned(w.domains)
  {
    if NoneOwned(ds, cluster) {
      forall name | name in w.domains ensures !w.domains[name].owned {
        var d :| d in ds && d.name == name;
      }
    }
  }

  /** The cluster is cleared exactly when its reconcile decides to remove the finalizer. */
  lemma CheckIsClusterPass(w: World, s: Sight, cluster: string)
    requires w.infraDeleting && !w.released && Sees(s, cluster, w)
    ensures AfterCheck(w, s.cleanupOk).cleared <==> ClusterPass(s, cluster) == Releases
    ensures AfterCheck(w, s.cleanupOk).cleared ==> w.machines == 0 && NobodyOwned(w.domains)
  {
    ReleaseIff(s, cluster);
    ListsNoneOwned(s.domains.value, cluster, w);
  }

  /** And it marks for deletion exactly the domains that its reconcile asks to go, if all its requests succeed. */
  lemma CheckDeletesAsked(w: World, s: Sight, cluster: string, name: string)
    requires w.infraDeleting && !w.released && Sees(s, cluster, w) && name in w.domains
    requires ClusterPass(s, cluster).DeletesDomains? && ClusterPass(s, cluster).all
    ensures name in ClusterPass(s, cluster).names ==>
        SameAt(AfterCheck(w, s.cleanupOk).domains, Deleted(w.domains, name), name)
    ensures name !in ClusterPass(s, cluster).names && (w.domains[name].finalizer || !w.domains[name].deleting) ==>
              SameAt(AfterCheck(w, s.cleanupOk).domains, w.domains, name)
  {
    AskedIffOwned(w, s, cluster, name);
    OwnedOfNone(s.domains.value, cluster);
    ListsNoneOwned(s.domains.value, cluster, w);
  }

  lemma AskedIffOwned(w: World, s: Sight, cluster: string, name: string)
    requires Sees(s, cluster, w) && name in w.domains
    requires ClusterPass(s, cluster).DeletesDomains? && ClusterPass(s, cluster).all
    ensures name in ClusterPass(s, cluster).names <==> w.domains[name].owned && !w.domains[name].deleting
  {
    AsksForOwned(s, cluster, name);
    var d :| d in s.domains.value && d.name == name;
  }

  predicate SameAt(a: map<string, Domain>, b: map<string, Domain>, name: string) {
    (name in a <==> name in b) && (name in a && name in b ==> a[name] == b[name])
  }

  // ---------- why the last look matters ----------

  /** A run in which a domain joins after the cluster has looked. */
  function LateRun(name: string, l: Luck): seq<Event> {
    [DeletesCluster, ChecksCluster(true), AddsDomain(name, false, V.Spec("", [])),
     ReconcilesDomain(name, l), ReconcilesDomain(name, l), PatchesCluster]
  }

  lemma RunOn(w: World, events: seq<Event>, e: Event)
    ensures Run(w, events + [e]) == Next(Run(w, events), e)
  {
    assert (events + [e])[..|events|] == events;
  }

  /** The two reconciles by which a new domain is adopted and records what is there. */
  lemma AdoptsAndRecords(w: World, name: string, l: Luck)
    requires !w.released && name in w.domains && w.domains[name] == Domain(false, false, false, V.Spec("", []), false)
    requires V.Complete(w.prism, name, V.GroupNames([])) && w.prism[V.Policy(V.PolicyName(name))].uuid != ""
    requires !l.isReady && l.setUp && l.patchLands && |l.fds| == 2 && l.uuids == []
    requires l.lookups >= V.LookupsNeeded(V.GroupNames([]))
    ensures var v := AfterDomain(AfterDomain(w, name, l), name, l);
            v.cleared == w.cleared && v.joinedSince && !v.released && !NothingLeft(v)
  {
    var adopted := AfterDomain(w, name, l);
    assert adopted.domains[name] == Domain(true, true, false, V.Spec("", []), false);
    assert V.GroupsIn(V.Spec("", [])) == [];
    V.CompleteIsStable(V.State(w.prism, l.lookups, l.uuids, l.replies), name, [], l.fds);
    var spec := V.SpecIn(w.prism, name, V.GroupNames([]), l.fds);
    var v := AfterDomain(adopted, name, l);
    assert v.domains[name] == Domain(true, true, false, spec, true) && v.prism == w.prism;
    PolicyIsLeft(v, name, spec);
  }

  lemma PolicyIsLeft(v: World, name: string, spec: V.Spec)
    requires Recorded(spec) <= v.history && spec.policy != ""
    requires V.Policy(V.PolicyName(name)) in v.prism && v.prism[V.Policy(V.PolicyName(name))].uuid == spec.policy
    ensures !NothingLeft(v)
  {
    assert spec.policy in Recorded(spec) && IsReplication(V.Policy(V.PolicyName(name)));
    assert Live(v.prism, spec.policy);
  }

  /**
   A domain that someone adds between the look and the patch may still be adopted, record resources
   of its name that exist in Prism, and be left behind with them when the NutanixCluster goes.
   */
  lemma LateDomainIsLeftBehind(w: World, name: string, l: Luck)
    requires Start(w) && w.machines == 0 && V.Complete(w.prism, name, V.GroupNames([]))
    requires !l.isReady && l.setUp && l.patchLands && |l.fds| == 2 && l.uuids == []
    requires l.lookups >= V.LookupsNeeded(V.GroupNames([]))
    ensures var v := Run(w, LateRun(name, l)); v.released && v.joinedSince && !NothingLeft(v)
  {
    var added := AddsDomain(name, false, V.Spec("", []));
    RunOfSix(w, DeletesCluster, ChecksCluster(true), added, ReconcilesDomain(name, l), ReconcilesDomain(name, l),
      PatchesCluster);
    UntilAdded(w, name);
    var joined := Next(Next(Next(w, DeletesCluster), ChecksCluster(true)), added);
    AdoptsAndRecords(joined, name, l);
    var recorded := AfterDomain(AfterDomain(joined, name, l), name, l);
    assert Next(recorded, PatchesCluster) == recorded.(released := true);
    StillLeft(recorded, recorded.(released := true));
  }

  lemma StillLeft(v: World, w: World)
    requires !NothingLeft(v) && w.history == v.history && w.prism == v.prism
    ensures !NothingLeft(w)
  {
  }

  /** The cluster has looked and found nothing; then a domain is added. */
  lemma UntilAdded(w: World, name: string)
    requires Start(w) && w.machines == 0
    ensures var v := Next(Next(Next(w, DeletesCluster), ChecksCluster(true)), AddsDomain(name, false, V.Spec("", [])));
            && v.cleared && !v.released && v.prism == w.prism
            && v.domains == map[name := Domain(false, false, false, V.Spec("", []), false)]
  {
  }

  lemma RunOfSix(w: World, a: Event, b: Event, c: Event, d: Event, e: Event, f: Event)
    ensures Run(w, [a, b, c, d, e, f]) == Next(Next(Next(Next(Next(Next(w, a), b), c), d), e), f)
  {
    RunOfThree(w, a, b, c);
    RunOn(w, [a, b, c], d);
    RunOn(w, [a, b, c, d], e);
    RunOn(w, [a, b, c, d, e], f);
    assert [a, b, c] + [d] == [a, b, c, d] && [a, b, c, d] + [e] == [a, b, c, d, e];
    assert [a, b, c, d, e] + [f] == [a, b, c, d, e, f];
  }

  lemma RunOfThree(w: World, a: Event, b: Event, c: Event)
    ensures Run(w, [a, b, c]) == Next(Next(Next(w, a), b), c)
  {
    RunOn(w, [], a);
    RunOn(w, [a], b);
    RunOn(w, [a, b], c);
    assert [] + [a] == [a] && [a] + [b] == [a, b] && [a, b] + [c] == [a, b, c];
  }

  // ---------- what a domain's reconcile may do to Prism ----------

  /** While the cluster lives, no reconcile of a domain deletes anything or lets the domain go. */
  lemma {:induction false} LiveClusterKeepsReplication(w: World, name: string, l: Luck, k: V.Key)
    requires !w.clusterDeleting || !w.infraDeleting
    ensures k in w.prism ==> k in AfterDomain(w, name, l).prism && AfterDomain(w, name, l).prism[k] == w.prism[k]
    ensures name in w.domains && w.domains[name].finalizer ==>
              name in AfterDomain(w, name, l).domains && AfterDomain(w, name, l).domains[name].finalizer
    ensures name in w.domains && !w.domains[name].deleting ==> name in AfterDomain(w, name, l).domains
  {
    if name in w.domains {
      var d := w.domains[name];
      V.EnsureExtends(V.State(w.prism, l.lookups, l.uuids, l.replies), name, V.GroupsIn(d.spec), l.fds, l.setUp);
    }
  }

  /** Resources appear only under the names of a domain whose finalizer was stored before and that is to stay. */
  lemma {:induction false} CreatesUnderFinalizer(w: World, name: string, l: Luck, k: V.Key)
    requires k in AfterDomain(w, name, l).prism && k !in w.prism
    ensures name in w.domains && w.domains[name].finalizer && !w.domains[name].deleting
    ensures k in V.Wanted(name, V.GroupNames(V.GroupsIn(w.domains[name].spec)))
  {
    var d := w.domains[name];
    if d.deleting {
      DeletionKeeps(w.prism, d.spec, l.calls, l.free, k);
    } else {
      V.EnsureExtends(V.State(w.prism, l.lookups, l.uuids, l.replies), name, V.GroupsIn(d.spec), l.fds, l.setUp);
    }
  }
}
