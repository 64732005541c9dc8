/**
 What a successful run of `ensureVHADomainPCResources` leaves in the spec and in Prism, said of the movement
 groups that the user gave and of the metro's two failure domains.
 */
module VhaSpec {
  import opened Wrappers
  import opened Sorting
  import opened Decimal
  import opened VhaResources

  lemma {:induction false} NeedsAt(domain: string, groups: seq<string>, g: nat, i: nat)
    requires g < |groups| && i < 2
    ensures CategoryNeeds(domain, groups)[2 * g + i] == CategoryNeed(domain, groups[g], i)
    ensures PlanNeeds(domain, groups)[2 * g + i] == PlanNeed(domain, groups[g], i)
  {
    var n := |groups| - 1;
    if g < n {
      NeedsAt(domain, groups[..n], g, i);
      assert CategoryNeeds(domain, groups)[2 * g + i] == CategoryNeeds(domain, groups[..n])[2 * g + i];
      assert PlanNeeds(domain, groups)[2 * g + i] == PlanNeeds(domain, groups[..n])[2 * g + i];
    }
  }

  lemma {:induction false} HasAt(p: Prism, needs: seq<Need>, j: nat)
    requires Has(p, needs) && j < |needs|
    ensures needs[j].nameFits && needs[j].key in p
  {
    if j < |needs| - 1 { HasAt(p, needs[..|needs| - 1], j); }
  }

  /** The generated name of a group's slot. */
  predicate IsSlotName(domain: string, group: string, i: nat, name: string) {
    name == "k8s-vha-capx-" + domain + "-" + group + "-" + Itoa(i) && |name| <= 64
  }

  /** A slot of a movement group: its failure domain, and the category and plan of its name, which exist. */
  predicate SlotIs(p: Prism, domain: string, group: string, i: nat, fd: string, slot: CategoryPlan) {
    && slot.failureDomain == fd
    && IsSlotName(domain, group, i, slot.category)
    && Category(slot.category) in p && Plan(slot.category) in p
    && slot.plan == p[Plan(slot.category)].uuid
  }

  lemma {:induction false} SpecSlot(p: Prism, domain: string, groups: seq<string>, fds: seq<string>, g: nat, i: nat)
    requires |fds| == 2 && Complete(p, domain, groups) && g < |groups| && i < 2
    ensures var slots := SpecIn(p, domain, groups, fds).groups[g].plans;
            |slots| == 2 && SlotIs(p, domain, groups[g], i, fds[i], slots[i])
  {
    NeedsAt(domain, groups, g, i);
    HasAt(p, CategoryNeeds(domain, groups), 2 * g + i);
    HasAt(p, PlanNeeds(domain, groups), 2 * g + i);
    UuidsAt(p, PlanNeeds(domain, groups), 2 * g + i);
  }

  lemma {:induction false} SpecGroups(given: seq<string>)
    ensures multiset(GroupNames(given)) == if given == [] then multiset{"default"} else multiset(given)
    ensures Sorted(NameLess, GroupNames(given))
  {
    NamesAreOrdered();
    SortSorts(NameLess, if given == [] then [DEFAULT_GROUP] else given);
  }

  /**
   After a successful run the spec holds the groups that the user gave, or the default one if none was
   given, sorted by name; slot `i` of each stands for failure domain `i`, with the category and the recovery
   plan of that slot's name; and the policy is the domain's.
   */
  lemma {:induction false} SpecIsUsers(s: State, domain: string, given: seq<string>, fds: seq<string>, setUp: bool)
    requires Ensured(s, domain, given, fds, setUp).result.Ok?
    ensures var spec := Ensured(s, domain, given, fds, setUp).result.value;
            var p := Ensured(s, domain, given, fds, setUp).state.prism;
            && multiset(GroupsIn(spec)) == (if given == [] then multiset{"default"} else multiset(given))
            && Sorted(NameLess, GroupsIn(spec)) && |fds| == 2
            && (forall g, i :: 0 <= g < |spec.groups| && 0 <= i < 2 ==>
                  |spec.groups[g].plans| == 2
                  && SlotIs(p, domain, spec.groups[g].name, i, fds[i], spec.groups[g].plans[i]))
            && Policy("k8s-vha-capx-" + domain) in p && spec.policy == p[Policy("k8s-vha-capx-" + domain)].uuid
  {
    var t := Ensured(s, domain, given, fds, setUp);
    var groups := GroupNames(given);
    EnsureCompletes(s, domain, given, fds, setUp);
    SpecGroups(given);
    assert GroupsIn(t.result.value) == groups;
    forall g, i | 0 <= g < |groups| && 0 <= i < 2
      ensures |t.result.value.groups[g].plans| == 2
      ensures SlotIs(t.state.prism, domain, groups[g], i, fds[i], t.result.value.groups[g].plans[i])
    {
      SpecSlot(t.state.prism, domain, groups, fds, g, i);
    }
  }

  // ---------- what a new plan recovers ----------

  /** Every plan of a later state that an earlier one lacks recovers the category of its own name. */
  ghost predicate PlansCoverOwn(a: Prism, b: Prism) {
    forall name :: Plan(name) in b && Plan(name) !in a ==> b[Plan(name)].covers == [name]
  }

  ghost predicate OwnNeeds(needs: seq<Need>) {
    forall j :: 0 <= j < |needs| && needs[j].key.Plan? ==> needs[j].covers == [needs[j].key.name]
  }

  lemma {:induction false} ObtainedCoverOwn(s: State, needs: seq<Need>)
    requires OwnNeeds(needs)
    ensures PlansCoverOwn(s.prism, ObtainedAll(s, needs).state.prism)
  {
    if needs != [] {
      var front, last := ObtainedAll(s, needs[..|needs| - 1]), needs[|needs| - 1];
      ObtainedCoverOwn(s, needs[..|needs| - 1]);
      assert last.key.Plan? ==> last.covers == [last.key.name];
      assert PlansCoverOwn(front.state.prism, ObtainedAll(s, needs).state.prism);
    }
  }

  lemma {:induction false} NeedsAreOwn(domain: string, groups: seq<string>)
    ensures OwnNeeds(CategoryNeeds(domain, groups)) && OwnNeeds(PlanNeeds(domain, groups))
  {
    if groups != [] { NeedsAreOwn(domain, groups[..|groups| - 1]); }
  }

  lemma {:induction false} PolicyCoversOwn(s: State, domain: string, groups: seq<string>)
    ensures PlansCoverOwn(s.prism, PolicyFor(s, domain, groups).state.prism)
  {
    NeedsAreOwn(domain, groups);
    if s.lookups > 0 { ObtainedCoverOwn(s.(lookups := s.lookups - 1), CategoryNeeds(domain, groups)); }
  }

  lemma {:induction false} CoverOwnOn(a: Prism, b: Prism, c: Prism)
    requires PlansCoverOwn(a, b) && PlansCoverOwn(b, c)
    requires forall k :: k in b ==> k in c && c[k] == b[k]
    ensures PlansCoverOwn(a, c)
  {
  }

  /** However far a run gets, each recovery plan it creates recovers the category of its own slot. */
  lemma {:induction false} NewPlansRecoverTheirs(s: State, domain: string, given: seq<string>, fds: seq<string>,
      setUp: bool)
    ensures PlansCoverOwn(s.prism, Ensured(s, domain, given, fds, setUp).state.prism)
  {
    var groups := GroupNames(given);
    var c := ObtainedAll(s, CategoryNeeds(domain, groups)).state;
    var p := PolicyFor(c, domain, groups).state;
    NeedsAreOwn(domain, groups);
    ObtainedCoverOwn(s, CategoryNeeds(domain, groups));
    PolicyCoversOwn(c, domain, groups);
    PolicyExtends(c, domain, groups);
    CoverOwnOn(s.prism, c.prism, p.prism);
    ObtainedCoverOwn(p, PlanNeeds(domain, groups));
    ObtainedExtends(p, PlanNeeds(domain, groups));
    CoverOwnOn(s.prism, p.prism, ObtainedAll(p, PlanNeeds(domain, groups)).state.prism);
  }

  // ---------- when a run succeeds ----------

  /** Enough of everything for `n` more resources. */
  predicate Ample(s: State, n: nat) {
    s.lookups >= n && |s.uuids| >= n && s.replies >= n
  }

  lemma {:induction false} AmpleObtains(s: State, needs: seq<Need>, more: nat)
    requires Ample(s, |needs| + more) && forall j :: 0 <= j < |needs| ==> needs[j].nameFits
    ensures ObtainedAll(s, needs).result.Ok? && Ample(ObtainedAll(s, needs).state, more)
  {
    if needs != [] { AmpleObtains(s, needs[..|needs| - 1], more + 1); }
  }

  lemma {:induction false} ObtainedGrows(s: State, needs: seq<Need>, n: nat, k: Key)
    requires n <= |needs| && k in ObtainedAll(s, needs[..n]).state.prism
    ensures k in ObtainedAll(s, needs).state.prism
  {
    for i := n to |needs|
      invariant k in ObtainedAll(s, needs[..i]).state.prism
    {
      assert needs[..i + 1][..i] == needs[..i];
    }
    assert needs[..|needs|] == needs;
  }

  /**
   What a run could create stays, however the run ends: with enough of everything for the first `n`
   categories they exist afterwards, even if a later step fails.
   */
  lemma {:induction false} CategoriesStay(s: State, domain: string, given: seq<string>, fds: seq<string>, n: nat,
      j: nat)
    requires |fds| == 2 && j < n <= |CategoryNeeds(domain, GroupNames(given))| && Ample(s, n)
    requires forall i :: 0 <= i < n ==> CategoryNeeds(domain, GroupNames(given))[i].nameFits
    ensures CategoryNeeds(domain, GroupNames(given))[j].key in Ensured(s, domain, given, fds, true).state.prism
  {
    var groups := GroupNames(given);
    var needs := CategoryNeeds(domain, groups);
    AmpleObtains(s, needs[..n], 0);
    ObtainedHas(s, needs[..n]);
    HasAt(ObtainedAll(s, needs[..n]).state.prism, needs[..n], j);
    ObtainedGrows(s, needs, n, needs[j].key);
    var c := ObtainedAll(s, needs).state;
    PolicyExtends(c, domain, groups);
    ObtainedExtends(PolicyFor(c, domain, groups).state, PlanNeeds(domain, groups));
  }

  /** The names of a group's two slots are short enough for Prism Central. */
  predicate NamesFit(domain: string, group: string) {
    |"k8s-vha-capx-" + domain + "-" + group + "-0"| <= 64
  }

  lemma {:induction false} NeedsFit(domain: string, groups: seq<string>)
    requires forall g :: 0 <= g < |groups| ==> NamesFit(domain, groups[g])
    ensures forall j :: 0 <= j < 2 * |groups| ==> CategoryNeeds(domain, groups)[j].nameFits
    ensures forall j :: 0 <= j < 2 * |groups| ==> PlanNeeds(domain, groups)[j].nameFits
  {
    if groups != [] {
      var group := groups[|groups| - 1];
      NeedsFit(domain, groups[..|groups| - 1]);
      assert NamesFit(domain, group);
      assert Itoa(0) == "0" && Itoa(1) == "1";
    }
  }

  /** With two failure domains, names that fit and every call succeeding, a run succeeds. */
  lemma {:induction false} AmpleSucceeds(s: State, domain: string, given: seq<string>, fds: seq<string>)
    requires |fds| == 2 && Ample(s, 6 * |GroupNames(given)| + 2)
    requires forall g :: g in given ==> NamesFit(domain, g)
    requires given == [] ==> NamesFit(domain, "default")
    ensures Ensured(s, domain, given, fds, true).result.Ok?
  {
    var groups := GroupNames(given);
    var n := |groups|;
    SpecGroups(given);
    forall g | 0 <= g < n ensures NamesFit(domain, groups[g]) { assert groups[g] in multiset(groups); }
    NeedsFit(domain, groups);
    AmpleObtains(s, CategoryNeeds(domain, groups), 4 * n + 2);
    var c := ObtainedAll(s, CategoryNeeds(domain, groups)).state;
    if Policy(PolicyName(domain)) !in c.prism {
      AmpleObtainsPolicy(c, domain, groups);
    }
    AmpleObtains(PolicyFor(c, domain, groups).state, PlanNeeds(domain, groups), 0);
  }

  lemma {:induction false} AmpleObtainsPolicy(c: State, domain: string, groups: seq<string>)
    requires Ample(c, 4 * |groups| + 2) && Policy(PolicyName(domain)) !in c.prism
    requires forall j :: 0 <= j < 2 * |groups| ==> CategoryNeeds(domain, groups)[j].nameFits
    requires |groups| > 0
    ensures PolicyFor(c, domain, groups).result.Ok? && Ample(PolicyFor(c, domain, groups).state, 2 * |groups|)
  {
    var t := c.(lookups := c.lookups - 1);
    AmpleObtains(t, CategoryNeeds(domain, groups), 2 * |groups| + 1);
  }
}
