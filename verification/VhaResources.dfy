/**
 The Prism Central resources of a virtual HA domain: `ensureVHADomainPCResources` and the names it
 generates.

 Per movement group and failure domain there is a category and a recovery plan, and per domain one
 protection policy. All are found by name or else created. A `State` says, beside what exists, how far
 one reconcile gets: how many of its lookups succeed, the UUIDs of the resources that it creates, and
 how many of its creates report success. A create may land and still be an error.
 */
module VhaResources {
  import opened Wrappers
  import opened Sorting
  import opened Decimal

  const DEFAULT_GROUP := "default"
  const NAME_PREFIX := "k8s-vha-capx-"
  const NAME_MAX := 64

  // ---------- names ----------

  /** `vhaCategoryValue` (before its length check) and `vhaRecoveryPlanName`. */
  function SlotName(domain: string, group: string, index: nat): string {
    NAME_PREFIX + domain + "-" + group + "-" + Itoa(index)
  }

  function PolicyName(domain: string): string {
    NAME_PREFIX + domain
  }

  lemma SplitAtLastDash(a: string, x: string, b: string, y: string)
    requires AllDigits(x) && AllDigits(y) && a + "-" + x == b + "-" + y
    ensures a == b && x == y
  {
    var s, t := a + "-" + x, b + "-" + y;
    assert s[|a|] == '-' && t[|b|] == '-';
    assert forall i :: |a| < i < |s| ==> s[i] == x[i - |a| - 1];
    assert forall i :: |b| < i < |t| ==> t[i] == y[i - |b| - 1];
    assert |a| == |b|;
    assert a == s[..|a|] && b == t[..|b|] && x == s[|a| + 1..] && y == t[|b| + 1..];
  }

  /**
   Two generated names are the same exactly when the indices are, and domain and group joined by a
   hyphen are.
   */
  lemma SameNameIff(domain: string, group: string, index: nat, domain': string, group': string, index': nat)
    ensures SlotName(domain, group, index) == SlotName(domain', group', index')
       <==> domain + "-" + group == domain' + "-" + group' && index == index'
  {
    var a, b := domain + "-" + group, domain' + "-" + group';
    assert SlotName(domain, group, index) == NAME_PREFIX + (a + "-" + Itoa(index));
    assert SlotName(domain', group', index') == NAME_PREFIX + (b + "-" + Itoa(index'));
    if SlotName(domain, group, index) == SlotName(domain', group', index') {
      assert a + "-" + Itoa(index) == SlotName(domain, group, index)[|NAME_PREFIX|..];
      assert b + "-" + Itoa(index') == SlotName(domain', group', index')[|NAME_PREFIX|..];
      SplitAtLastDash(a, Itoa(index), b, Itoa(index'));
      ItoaInjective(index, index');
    }
  }

  /** Within one domain the names are pairwise distinct. */
  lemma NamesDistinct(domain: string, group: string, index: nat, group': string, index': nat)
    requires SlotName(domain, group, index) == SlotName(domain, group', index')
    ensures group == group' && index == index'
  {
    SameNameIff(domain, group, index, domain, group', index');
    assert (domain + "-" + group)[|domain| + 1..] == group && (domain + "-" + group')[|domain| + 1..] == group';
  }

  /** Two domains can clash. */
  lemma NamesClashAcrossDomains()
    ensures SlotName("a", "b-c", 0) == SlotName("a-b", "c", 0)
  {
    SameNameIff("a", "b-c", 0, "a-b", "c", 0);
  }

  // ---------- Prism ----------

  datatype Key = Category(value: string) | Policy(name: string) | Plan(name: string)

  /** `covers`: the categories that a policy is tagged with, by ExtId; the category that a plan recovers, by value. */
  datatype Resource = Resource(uuid: string, covers: seq<string>)

  type Prism = map<Key, Resource>

  datatype State = State(prism: Prism, lookups: nat, uuids: seq<string>, replies: nat)

  /** What a step leaves behind, and what it returns. */
  datatype Outcome<T> = Outcome(state: State, result: Result<T>)

  /** Without a UUID left the create is refused; without a reply left it lands and is an error all the same. */
  function Creating(s: State, k: Key, covers: seq<string>): Outcome<string> {
    if s.uuids == [] then Outcome(s, Err)
    else
      var created := s.(prism := s.prism[k := Resource(s.uuids[0], covers)], uuids := s.uuids[1..]);
      if s.replies == 0 then Outcome(created, Err)
      else Outcome(created.(replies := s.replies - 1), Ok(s.uuids[0]))
  }

  /** Found by name, or else created. */
  function Obtained(s: State, k: Key, covers: seq<string>): Outcome<string> {
    if s.lookups == 0 then Outcome(s, Err)
    else
      var t := s.(lookups := s.lookups - 1);
      if k in s.prism then Outcome(t, Ok(s.prism[k].uuid)) else Creating(t, k, covers)
  }

  // ---------- the create path as functions ----------

  /** A resource to be found or created; only category values have a length limit. */
  datatype Need = Need(key: Key, covers: seq<string>, nameFits: bool)

  function CategoryNeed(domain: string, group: string, index: nat): Need {
    var value := SlotName(domain, group, index);
    Need(Category(value), [], |value| <= NAME_MAX)
  }

  function PlanNeed(domain: string, group: string, index: nat): Need {
    var name := SlotName(domain, group, index);
    Need(Plan(name), [name], true)
  }

  /** Two categories per group, one for each failure domain. */
  function CategoryNeeds(domain: string, groups: seq<string>): (r: seq<Need>)
    ensures |r| == 2 * |groups|
  {
    if groups == [] then []
    else
      var group := groups[|groups| - 1];
      CategoryNeeds(domain, groups[..|groups| - 1]) + [CategoryNeed(domain, group, 0), CategoryNeed(domain, group, 1)]
  }

  function PlanNeeds(domain: string, groups: seq<string>): (r: seq<Need>)
    ensures |r| == 2 * |groups|
  {
    if groups == [] then []
    else
      var group := groups[|groups| - 1];
      PlanNeeds(domain, groups[..|groups| - 1]) + [PlanNeed(domain, group, 0), PlanNeed(domain, group, 1)]
  }

  /** One more need, after a run over those before it. */
  function Then(front: Outcome<seq<string>>, need: Need): Outcome<seq<string>> {
    if front.result.Err? || !need.nameFits then Outcome(front.state, Err)
    else
      var last := Obtained(front.state, need.key, need.covers);
      Outcome(last.state, if last.result.Ok? then Ok(front.result.value + [last.result.value]) else Err)
  }

  function ObtainedAll(s: State, needs: seq<Need>): Outcome<seq<string>> {
    if needs == [] then Outcome(s, Ok([])) else Then(ObtainedAll(s, needs[..|needs| - 1]), needs[|needs| - 1])
  }

  /** A policy found by its name is taken as it is. */
  function PolicyFor(s: State, domain: string, groups: seq<string>): Outcome<string> {
    if s.lookups == 0 then Outcome(s, Err)
    else
      var t := s.(lookups := s.lookups - 1);
      var k := Policy(PolicyName(domain));
      if k in s.prism then Outcome(t, Ok(s.prism[k].uuid))
      else
        var tags := ObtainedAll(t, CategoryNeeds(domain, groups));
        if tags.result.Err? then Outcome(tags.state, Err) else Creating(tags.state, k, tags.result.value)
  }

  datatype CategoryPlan = CategoryPlan(category: string, failureDomain: string, plan: string)

  datatype MovementGroup = MovementGroup(name: string, plans: seq<CategoryPlan>)

  /** What the create path writes into the domain's spec. */
  datatype Spec = Spec(policy: string, groups: seq<MovementGroup>)

  function GroupOf(domain: string, group: string, fds: seq<string>, plan0: string, plan1: string): MovementGroup
    requires |fds| == 2
  {
    MovementGroup(group, [
      CategoryPlan(SlotName(domain, group, 0), fds[0], plan0),
      CategoryPlan(SlotName(domain, group, 1), fds[1], plan1)])
  }

  function GroupsOf(domain: string, groups: seq<string>, fds: seq<string>, plans: seq<string>): (r: seq<MovementGroup>)
    requires |fds| == 2 && |plans| == 2 * |groups|
    ensures |r| == |groups|
    ensures forall g :: 0 <= g < |groups| ==> r[g] == GroupOf(domain, groups[g], fds, plans[2 * g], plans[2 * g + 1])
  {
    seq(|groups|, g requires 0 <= g < |groups| => GroupOf(domain, groups[g], fds, plans[2 * g], plans[2 * g + 1]))
  }

  /** The groups to reconcile, sorted; a default one if none is given. */
  function GroupNames(given: seq<string>): seq<string> {
    Sort(NameLess, if given == [] then [DEFAULT_GROUP] else given)
  }

  lemma {:induction false} ObtainedLength(s: State, needs: seq<Need>)
    ensures var r := ObtainedAll(s, needs).result; r.Ok? ==> |r.value| == |needs|
  {
    if needs != [] {
      ObtainedLength(s, needs[..|needs| - 1]);
    }
  }

  /** The last stage: the recovery plans and the spec. */
  function WithPlans(s: State, domain: string, groups: seq<string>, fds: seq<string>, policy: string): Outcome<Spec>
    requires |fds| == 2
  {
    var r := ObtainedAll(s, PlanNeeds(domain, groups));
    ObtainedLength(s, PlanNeeds(domain, groups));
    Outcome(r.state, if r.result.Err? then Err else Ok(Spec(policy, GroupsOf(domain, groups, fds, r.result.value))))
  }

  /** `setUp` is false when the lookups before the first resource fail. */
  function Ensured(s: State, domain: string, given: seq<string>, fds: seq<string>, setUp: bool): Outcome<Spec> {
    if |fds| != 2 || !setUp then Outcome(s, Err)
    else
      var groups := GroupNames(given);
      var c := ObtainedAll(s, CategoryNeeds(domain, groups));
      if c.result.Err? then Outcome(c.state, Err)
      else
        var p := PolicyFor(c.state, domain, groups);
        if p.result.Err? then Outcome(p.state, Err) else WithPlans(p.state, domain, groups, fds, p.result.value)
  }

  // ---------- the methods ----------

  class PrismCentral {
    var resources: Prism
    var lookups: nat
    var uuids: seq<string>
    var replies: nat

    constructor (s: State)
      ensures Value() == s
    {
      resources, lookups, uuids, replies := s.prism, s.lookups, s.uuids, s.replies;
    }

    function Value(): State
      reads this
    {
      State(resources, lookups, uuids, replies)
    }

    method Find(k: Key) returns (found: Result<Option<string>>)
      modifies this`lookups
      ensures old(lookups) == 0 ==> found == Err && lookups == 0
      ensures old(lookups) > 0 ==>
                lookups == old(lookups) - 1 && found == Ok(if k in resources then Some(resources[k].uuid) else None)
    {
      if lookups == 0 { return Err; }
      lookups := lookups - 1;
      return Ok(if k in resources then Some(resources[k].uuid) else None);
    }

    method Create(k: Key, covers: seq<string>) returns (uuid: Result<string>)
      modifies this`resources, this`uuids, this`replies
      ensures Outcome(Value(), uuid) == Creating(old(Value()), k, covers)
    {
      if uuids == [] { return Err; }
      uuid := Ok(uuids[0]);
      resources := resources[k := Resource(uuids[0], covers)];
      uuids := uuids[1..];
      if replies == 0 { return Err; }
      replies := replies - 1;
    }

    method GetOrCreate(k: Key, covers: seq<string>) returns (uuid: Result<string>)
      modifies this
      ensures Outcome(Value(), uuid) == Obtained(old(Value()), k, covers)
    {
      var found := Find(k);
      if found.Err? { return Err; }
      if found.value.Some? { return Ok(found.value.value); }
      uuid := Create(k, covers);
    }
  }

  /** The categories of one group. */
  method GetOrCreateGroupCategories(prism: PrismCentral, domain: string, group: string,
      ghost before: Outcome<seq<string>>)
    returns (r: Result<seq<string>>)
    requires before.state == prism.Value() && before.result.Ok?
    modifies prism
    ensures var all := Then(Then(before, CategoryNeed(domain, group, 0)), CategoryNeed(domain, group, 1));
            all == Outcome(prism.Value(), if r.Ok? then Ok(before.result.value + r.value) else Err)
  {
    var extIds: seq<string> := [];
    ghost var now := before;
    assert before.result.value + extIds == before.result.value;
    for i := 0 to 2
      invariant now == if i == 0 then before else if i == 1 then Then(before, CategoryNeed(domain, group, 0))
                       else Then(Then(before, CategoryNeed(domain, group, 0)), CategoryNeed(domain, group, 1))
      invariant now == Outcome(prism.Value(), Ok(before.result.value + extIds))
    {
      var value := SlotName(domain, group, i);
      if |value| > NAME_MAX { return Err; }
      var extId := prism.GetOrCreate(Category(value), []);
      if extId.Err? { return Err; }
      assert before.result.value + extIds + [extId.value] == before.result.value + (extIds + [extId.value]);
      extIds := extIds + [extId.value];
      now := Then(now, CategoryNeed(domain, group, i));
    }
    return Ok(extIds);
  }

  lemma CategoryNeedsNext(s: State, domain: string, groups: seq<string>, g: nat)
    requires g < |groups|
    ensures ObtainedAll(s, CategoryNeeds(domain, groups[..g + 1]))
         == Then(Then(ObtainedAll(s, CategoryNeeds(domain, groups[..g])), CategoryNeed(domain, groups[g], 0)),
           CategoryNeed(domain, groups[g], 1))
  {
    var front := CategoryNeeds(domain, groups[..g]);
    assert groups[..g + 1][..g] == groups[..g];
    ObtainTwo(s, front, CategoryNeed(domain, groups[g], 0), CategoryNeed(domain, groups[g], 1));
  }

  lemma PlanNeedsNext(s: State, domain: string, groups: seq<string>, g: nat)
    requires g < |groups|
    ensures ObtainedAll(s, PlanNeeds(domain, groups[..g + 1]))
         == Then(Then(ObtainedAll(s, PlanNeeds(domain, groups[..g])), PlanNeed(domain, groups[g], 0)),
           PlanNeed(domain, groups[g], 1))
  {
    var front := PlanNeeds(domain, groups[..g]);
    assert groups[..g + 1][..g] == groups[..g];
    ObtainTwo(s, front, PlanNeed(domain, groups[g], 0), PlanNeed(domain, groups[g], 1));
  }

  lemma ObtainTwo(s: State, front: seq<Need>, a: Need, b: Need)
    ensures ObtainedAll(s, front + [a, b]) == Then(Then(ObtainedAll(s, front), a), b)
  {
    assert (front + [a, b])[..|front| + 1] == front + [a];
    assert (front + [a])[..|front|] == front;
  }

  lemma {:induction false} CategoriesFail(s: State, domain: string, groups: seq<string>, g: nat)
    requires g <= |groups| && ObtainedAll(s, CategoryNeeds(domain, groups[..g])).result.Err?
    ensures ObtainedAll(s, CategoryNeeds(domain, groups)) == ObtainedAll(s, CategoryNeeds(domain, groups[..g]))
    decreases |groups| - g
  {
    if g < |groups| {
      CategoryNeedsNext(s, domain, groups, g);
      CategoriesFail(s, domain, groups, g + 1);
    } else {
      assert groups[..g] == groups;
    }
  }

  lemma {:induction false} PlansFail(s: State, domain: string, groups: seq<string>, g: nat)
    requires g <= |groups| && ObtainedAll(s, PlanNeeds(domain, groups[..g])).result.Err?
    ensures ObtainedAll(s, PlanNeeds(domain, groups)) == ObtainedAll(s, PlanNeeds(domain, groups[..g]))
    decreases |groups| - g
  {
    if g < |groups| {
      PlanNeedsNext(s, domain, groups, g);
      PlansFail(s, domain, groups, g + 1);
    } else {
      assert groups[..g] == groups;
    }
  }

  /** The categories of every group and failure domain, in order. */
  method GetOrCreateCategories(prism: PrismCentral, domain: string, groups: seq<string>)
      returns (r: Result<seq<string>>)
    modifies prism
    ensures Outcome(prism.Value(), r) == ObtainedAll(old(prism.Value()), CategoryNeeds(domain, groups))
  {
    ghost var start := prism.Value();
    var extIds: seq<string> := [];
    for g := 0 to |groups|
      invariant Outcome(prism.Value(), Ok(extIds)) == ObtainedAll(start, CategoryNeeds(domain, groups[..g]))
    {
      CategoryNeedsNext(start, domain, groups, g);
      var more :=
        GetOrCreateGroupCategories(prism, domain, groups[g], ObtainedAll(start, CategoryNeeds(domain, groups[..g])));
      if more.Err? {
        CategoriesFail(start, domain, groups, g + 1);
        return Err;
      }
      extIds := extIds + more.value;
    }
    assert groups[..|groups|] == groups;
    return Ok(extIds);
  }

  method GetOrCreateProtectionPolicy(prism: PrismCentral, domain: string, groups: seq<string>)
      returns (uuid: Result<string>)
    modifies prism
    ensures Outcome(prism.Value(), uuid) == PolicyFor(old(prism.Value()), domain, groups)
  {
    var k := Policy(PolicyName(domain));
    var found := prism.Find(k);
    if found.Err? { return Err; }
    if found.value.Some? { return Ok(found.value.value); }
    var extIds := GetOrCreateCategories(prism, domain, groups);
    if extIds.Err? { return Err; }
    uuid := prism.Create(k, extIds.value);
  }

  /** The recovery plans of every group and failure domain, in order. */
  method GetOrCreateRecoveryPlans(prism: PrismCentral, domain: string, groups: seq<string>)
      returns (r: Result<seq<string>>)
    modifies prism
    ensures Outcome(prism.Value(), r) == ObtainedAll(old(prism.Value()), PlanNeeds(domain, groups))
  {
    ghost var start := prism.Value();
    var plans: seq<string> := [];
    for g := 0 to |groups|
      invariant Outcome(prism.Value(), Ok(plans)) == ObtainedAll(start, PlanNeeds(domain, groups[..g]))
    {
      PlanNeedsNext(start, domain, groups, g);
      ghost var before := ObtainedAll(start, PlanNeeds(domain, groups[..g]));
      ghost var now := before;
      for i := 0 to 2
        invariant now == if i == 0 then before else if i == 1 then Then(before, PlanNeed(domain, groups[g], 0))
                         else Then(Then(before, PlanNeed(domain, groups[g], 0)), PlanNeed(domain, groups[g], 1))
        invariant now == Outcome(prism.Value(), Ok(plans))
      {
        var name := SlotName(domain, groups[g], i);
        var uuid := prism.GetOrCreate(Plan(name), [name]);
        if uuid.Err? {
          PlansFail(start, domain, groups, g + 1);
          return Err;
        }
        plans := plans + [uuid.value];
        now := Then(now, PlanNeed(domain, groups[g], i));
      }
    }
    assert groups[..|groups|] == groups;
    return Ok(plans);
  }

  method EnsurePcResources(prism: PrismCentral, domain: string, given: seq<string>, fds: seq<string>, setUp: bool)
    returns (r: Result<Spec>)
    modifies prism
    ensures Outcome(prism.Value(), r) == Ensured(old(prism.Value()), domain, given, fds, setUp)
  {
    if |fds| != 2 || !setUp { return Err; }
    var groupNames := given;
    if |groupNames| == 0 { groupNames := groupNames + [DEFAULT_GROUP]; }
    groupNames := Sort(NameLess, groupNames);
    var categories := GetOrCreateCategories(prism, domain, groupNames);
    if categories.Err? { return Err; }
    var policy := GetOrCreateProtectionPolicy(prism, domain, groupNames);
    if policy.Err? { return Err; }
    ghost var before := prism.Value();
    var plans := GetOrCreateRecoveryPlans(prism, domain, groupNames);
    if plans.Err? { return Err; }
    ObtainedLength(before, PlanNeeds(domain, groupNames));
    return Ok(Spec(policy.value, GroupsOf(domain, groupNames, fds, plans.value)));
  }

  // ---------- nothing is lost, nothing foreign is created ----------

  function KeysOf(needs: seq<Need>): set<Key> {
    if needs == [] then {} else KeysOf(needs[..|needs| - 1]) + {needs[|needs| - 1].key}
  }

  /** Everything in `a` is still there, untouched, in `b`; what is new is one of `keys`. */
  ghost predicate Extends(a: Prism, b: Prism, keys: set<Key>) {
    forall k :: (k in a ==> k in b && b[k] == a[k]) && (k in b && k !in a ==> k in keys)
  }

  lemma {:induction false} ObtainedExtends(s: State, needs: seq<Need>)
    ensures Extends(s.prism, ObtainedAll(s, needs).state.prism, KeysOf(needs))
  {
    if needs != [] {
      ObtainedExtends(s, needs[..|needs| - 1]);
    }
  }

  /** Every name that the create path may create. */
  function Wanted(domain: string, groups: seq<string>): set<Key> {
    KeysOf(CategoryNeeds(domain, groups)) + {Policy(PolicyName(domain))} + KeysOf(PlanNeeds(domain, groups))
  }

  lemma PolicyExtends(s: State, domain: string, groups: seq<string>)
    ensures Extends(s.prism, PolicyFor(s, domain, groups).state.prism,
                    KeysOf(CategoryNeeds(domain, groups)) + {Policy(PolicyName(domain))})
  {
    if s.lookups > 0 {
      ObtainedExtends(s.(lookups := s.lookups - 1), CategoryNeeds(domain, groups));
    }
  }

  lemma ExtendsOn(a: Prism, b: Prism, c: Prism, x: set<Key>, y: set<Key>, z: set<Key>)
    requires Extends(a, b, x) && Extends(b, c, y) && x <= z && y <= z
    ensures Extends(a, c, z)
  {
  }

  /**
   However far a reconcile gets, it leaves every resource that it finds as it is, and creates under
   the domain's generated names only. So over any number of reconciles each name is created once.
   */
  lemma EnsureExtends(s: State, domain: string, given: seq<string>, fds: seq<string>, setUp: bool)
    ensures Extends(s.prism, Ensured(s, domain, given, fds, setUp).state.prism, Wanted(domain, GroupNames(given)))
  {
    var groups := GroupNames(given);
    var all := Wanted(domain, groups);
    var c := ObtainedAll(s, CategoryNeeds(domain, groups)).state;
    var p := PolicyFor(c, domain, groups).state;
    ObtainedExtends(s, CategoryNeeds(domain, groups));
    PolicyExtends(c, domain, groups);
    ObtainedExtends(p, PlanNeeds(domain, groups));
    ExtendsOn(s.prism, c.prism, p.prism, KeysOf(CategoryNeeds(domain, groups)),
              KeysOf(CategoryNeeds(domain, groups)) + {Policy(PolicyName(domain))}, all);
    ExtendsOn(s.prism, p.prism, ObtainedAll(p, PlanNeeds(domain, groups)).state.prism, all,
      KeysOf(PlanNeeds(domain, groups)), all);
  }

  // ---------- what a successful run has established ----------

  /** Everything needed is there. */
  predicate Has(p: Prism, needs: seq<Need>) {
    needs == [] || (Has(p, needs[..|needs| - 1]) && needs[|needs| - 1].key in p && needs[|needs| - 1].nameFits)
  }

  function Uuids(p: Prism, needs: seq<Need>): (r: seq<string>)
    requires Has(p, needs)
    ensures |r| == |needs|
  {
    if needs == [] then [] else Uuids(p, needs[..|needs| - 1]) + [p[needs[|needs| - 1].key].uuid]
  }

  lemma {:induction false} UuidsAt(p: Prism, needs: seq<Need>, j: nat)
    requires Has(p, needs) && j < |needs|
    ensures needs[j].key in p && Uuids(p, needs)[j] == p[needs[j].key].uuid
  {
    if j < |needs| - 1 {
      UuidsAt(p, needs[..|needs| - 1], j);
    }
  }

  lemma {:induction false} HasExtends(a: Prism, b: Prism, needs: seq<Need>, keys: set<Key>)
    requires Has(a, needs) && Extends(a, b, keys)
    ensures Has(b, needs) && Uuids(b, needs) == Uuids(a, needs)
  {
    if needs != [] {
      HasExtends(a, b, needs[..|needs| - 1], keys);
    }
  }

  lemma {:induction false} ObtainedHas(s: State, needs: seq<Need>)
    requires ObtainedAll(s, needs).result.Ok?
    ensures var t := ObtainedAll(s, needs); Has(t.state.prism, needs) && t.result.value == Uuids(t.state.prism, needs)
  {
    if needs != [] {
      var front := needs[..|needs| - 1];
      var a := ObtainedAll(s, front);
      ObtainedHas(s, front);
      HasExtends(a.state.prism, ObtainedAll(s, needs).state.prism, front, {needs[|needs| - 1].key});
    }
  }

  /** Everything that the domain needs is there. */
  predicate Complete(p: Prism, domain: string, groups: seq<string>) {
    && Has(p, CategoryNeeds(domain, groups)) && Has(p, PlanNeeds(domain, groups)) && Policy(PolicyName(domain)) in p
  }

  /** The spec that a complete state leads to. */
  function SpecIn(p: Prism, domain: string, groups: seq<string>, fds: seq<string>): Spec
    requires |fds| == 2 && Complete(p, domain, groups)
  {
    Spec(p[Policy(PolicyName(domain))].uuid, GroupsOf(domain, groups, fds, Uuids(p, PlanNeeds(domain, groups))))
  }

  lemma WithPlansCompletes(s: State, domain: string, groups: seq<string>, fds: seq<string>)
    requires |fds| == 2 && Has(s.prism, CategoryNeeds(domain, groups)) && Policy(PolicyName(domain)) in s.prism
    requires WithPlans(s, domain, groups, fds, s.prism[Policy(PolicyName(domain))].uuid).result.Ok?
    ensures var t := WithPlans(s, domain, groups, fds, s.prism[Policy(PolicyName(domain))].uuid);
            Complete(t.state.prism, domain, groups) && t.result.value == SpecIn(t.state.prism, domain, groups, fds)
  {
    var needs := PlanNeeds(domain, groups);
    ObtainedExtends(s, needs);
    HasExtends(s.prism, ObtainedAll(s, needs).state.prism, CategoryNeeds(domain, groups), KeysOf(needs));
    ObtainedHas(s, needs);
  }

  lemma PolicyForFinds(s: State, domain: string, groups: seq<string>)
    requires PolicyFor(s, domain, groups).result.Ok? && Has(s.prism, CategoryNeeds(domain, groups))
    ensures var t := PolicyFor(s, domain, groups);
            && Has(t.state.prism, CategoryNeeds(domain, groups))
            && Policy(PolicyName(domain)) in t.state.prism
            && t.result.value == t.state.prism[Policy(PolicyName(domain))].uuid
  {
    var needs := CategoryNeeds(domain, groups);
    PolicyExtends(s, domain, groups);
    HasExtends(s.prism, PolicyFor(s, domain, groups).state.prism, needs, KeysOf(needs) + {Policy(PolicyName(domain))});
  }

  /** A successful run leaves nothing missing, and its spec refers to what is there. */
  lemma EnsureCompletes(s: State, domain: string, given: seq<string>, fds: seq<string>, setUp: bool)
    requires Ensured(s, domain, given, fds, setUp).result.Ok?
    ensures var t := Ensured(s, domain, given, fds, setUp);
            && |fds| == 2 && Complete(t.state.prism, domain, GroupNames(given))
            && t.result.value == SpecIn(t.state.prism, domain, GroupNames(given), fds)
  {
    var groups := GroupNames(given);
    var c := ObtainedAll(s, CategoryNeeds(domain, groups)).state;
    ObtainedHas(s, CategoryNeeds(domain, groups));
    PolicyForFinds(c, domain, groups);
    WithPlansCompletes(PolicyFor(c, domain, groups).state, domain, groups, fds);
  }

  // ---------- the second run ----------

  /** Over what is already there a run needs its lookups and nothing else. */
  lemma {:induction false} ObtainedAgain(s: State, needs: seq<Need>)
    requires Has(s.prism, needs) && s.lookups >= |needs|
    ensures ObtainedAll(s, needs) == Outcome(s.(lookups := s.lookups - |needs|), Ok(Uuids(s.prism, needs)))
  {
    if needs != [] {
      ObtainedAgain(s, needs[..|needs| - 1]);
    }
  }

  function LookupsNeeded(groups: seq<string>): nat {
    4 * |groups| + 1
  }

  lemma WithPlansAgain(s: State, domain: string, groups: seq<string>, fds: seq<string>)
    requires |fds| == 2 && Complete(s.prism, domain, groups) && s.lookups >= 2 * |groups|
    ensures WithPlans(s, domain, groups, fds, s.prism[Policy(PolicyName(domain))].uuid)
         == Outcome(s.(lookups := s.lookups - 2 * |groups|), Ok(SpecIn(s.prism, domain, groups, fds)))
  {
    ObtainedAgain(s, PlanNeeds(domain, groups));
  }

  /** A run that finds everything in place creates nothing. */
  lemma CompleteIsStable(s: State, domain: string, given: seq<string>, fds: seq<string>)
    requires |fds| == 2 && Complete(s.prism, domain, GroupNames(given)) && s.lookups >= LookupsNeeded(GroupNames(given))
    ensures Ensured(s, domain, given, fds, true)
         == Outcome(s.(lookups := s.lookups - LookupsNeeded(GroupNames(given))),
           Ok(SpecIn(s.prism, domain, GroupNames(given), fds)))
  {
    var groups := GroupNames(given);
    var t := s.(lookups := s.lookups - 2 * |groups|);
    var u := t.(lookups := t.lookups - 1);
    ObtainedAgain(s, CategoryNeeds(domain, groups));
    assert PolicyFor(t, domain, groups) == Outcome(u, Ok(s.prism[Policy(PolicyName(domain))].uuid));
    WithPlansAgain(u, domain, groups, fds);
  }

  /** The names of the groups in a spec. */
  function GroupsIn(spec: Spec): (r: seq<string>)
    ensures |r| == |spec.groups|
    ensures forall g :: 0 <= g < |r| ==> r[g] == spec.groups[g].name
  {
    seq(|spec.groups|, g requires 0 <= g < |spec.groups| => spec.groups[g].name)
  }

  lemma GroupNamesSettle(given: seq<string>)
    ensures GroupNames(GroupNames(given)) == GroupNames(given)
  {
    var all := if given == [] then [DEFAULT_GROUP] else given;
    NamesAreOrdered();
    SortSorts(NameLess, all);
    SortOfSorted(NameLess, GroupNames(given));
  }

  /**
   Idempotence: after a run that succeeded, a run from the spec it wrote, over the same resources,
   creates nothing (it gets by without a single new UUID) and writes the same spec again, the
   synthesised group and the sorted names included.
   */
  lemma EnsureIdempotent(s: State, domain: string, given: seq<string>, fds: seq<string>, later: State)
    requires var first := Ensured(s, domain, given, fds, true);
             first.result.Ok? && later.prism == first.state.prism && later.lookups >= LookupsNeeded(GroupNames(given))
    ensures var first := Ensured(s, domain, given, fds, true);
            var again := Ensured(later, domain, GroupsIn(first.result.value), fds, true);
            && again.state.prism == later.prism && again.state.uuids == later.uuids
            && again.state.replies == later.replies && again.result == first.result
  {
    var first := Ensured(s, domain, given, fds, true);
    EnsureCompletes(s, domain, given, fds, true);
    assert GroupsIn(first.result.value) == GroupNames(given);
    GroupNamesSettle(given);
    CompleteIsStable(later, domain, GroupNames(given), fds);
  }

  /** A run after one that was cut short anywhere creates only what is still missing. */
  lemma RetryKeepsProgress(s: State, domain: string, given: seq<string>, fds: seq<string>, setUp: bool, later: State)
    requires later.prism == Ensured(s, domain, given, fds, setUp).state.prism
    requires Ensured(later, domain, given, fds, true).result.Ok?
    ensures var done := Ensured(later, domain, given, fds, true).state.prism;
            && Complete(done, domain, GroupNames(given))
            && Extends(s.prism, later.prism, Wanted(domain, GroupNames(given)))
            && Extends(later.prism, done, Wanted(domain, GroupNames(given)))
  {
    EnsureExtends(s, domain, given, fds, setUp);
    EnsureExtends(later, domain, given, fds, true);
    EnsureCompletes(later, domain, given, fds, true);
  }

  // ---------- what the policy covers ----------

  /** The tags of the domain's policy. */
  function Tags(p: Prism, domain: string): seq<string> {
    if Policy(PolicyName(domain)) in p then p[Policy(PolicyName(domain))].covers else []
  }

  lemma {:induction false} ObtainedKeepsPolicies(s: State, needs: seq<Need>, k: Key)
    requires k !in KeysOf(needs)
    ensures k in ObtainedAll(s, needs).state.prism <==> k in s.prism
  {
    ObtainedExtends(s, needs);
  }

  lemma {:induction false} CategoryKeys(domain: string, groups: seq<string>)
    ensures forall k :: k in KeysOf(CategoryNeeds(domain, groups)) ==> k.Category?
  {
    if groups != [] {
      var front := CategoryNeeds(domain, groups[..|groups| - 1]);
      var a, b := CategoryNeed(domain, groups[|groups| - 1], 0), CategoryNeed(domain, groups[|groups| - 1], 1);
      CategoryKeys(domain, groups[..|groups| - 1]);
      assert (front + [a, b])[..|front| + 1] == front + [a];
      assert (front + [a])[..|front|] == front;
    }
  }

  /** A policy that a successful run creates is tagged with all the domain's categories, in order. */
  lemma NewPolicyCovers(s: State, domain: string, given: seq<string>, fds: seq<string>)
    requires Ensured(s, domain, given, fds, true).result.Ok? && Policy(PolicyName(domain)) !in s.prism
    ensures var p := Ensured(s, domain, given, fds, true).state.prism;
            && Has(p, CategoryNeeds(domain, GroupNames(given)))
            && Tags(p, domain) == Uuids(p, CategoryNeeds(domain, GroupNames(given)))
  {
    var groups := GroupNames(given);
    var needs := CategoryNeeds(domain, groups);
    var c := ObtainedAll(s, needs).state;
    CategoryKeys(domain, groups);
    ObtainedKeepsPolicies(s, needs, Policy(PolicyName(domain)));
    TagsOfNewPolicy(c, domain, groups);
    var p := PolicyFor(c, domain, groups).state;
    ObtainedExtends(p, PlanNeeds(domain, groups));
    HasExtends(p.prism, ObtainedAll(p, PlanNeeds(domain, groups)).state.prism, needs,
      KeysOf(PlanNeeds(domain, groups)));
  }

  lemma TagsOfNewPolicy(s: State, domain: string, groups: seq<string>)
    requires PolicyFor(s, domain, groups).result.Ok? && Policy(PolicyName(domain)) !in s.prism
    ensures var p := PolicyFor(s, domain, groups).state.prism;
            && Has(p, CategoryNeeds(domain, groups)) && Tags(p, domain) == Uuids(p, CategoryNeeds(domain, groups))
  {
    var needs := CategoryNeeds(domain, groups);
    var t := s.(lookups := s.lookups - 1);
    ObtainedHas(t, needs);
    CategoryKeys(domain, groups);
    ObtainedKeepsPolicies(t, needs, Policy(PolicyName(domain)));
    HasExtends(ObtainedAll(t, needs).state.prism, PolicyFor(s, domain, groups).state.prism, needs,
      {Policy(PolicyName(domain))});
  }

  /** A policy that exists already is not tagged again, whatever the groups now are. */
  lemma OldPolicyKeepsTags(s: State, domain: string, given: seq<string>, fds: seq<string>, setUp: bool)
    requires Policy(PolicyName(domain)) in s.prism
    ensures Tags(Ensured(s, domain, given, fds, setUp).state.prism, domain) == Tags(s.prism, domain)
  {
    EnsureExtends(s, domain, given, fds, setUp);
  }
}
