/**
 Deletion comes to an end, and exactly when.

 Prism is now a state of its own: VMs with their disks and at most one running task each. Rounds
 alternate a reconcile that sees that state and one tick of Prism's clock. Disaster recovery is
 quiet: no VM changes its role, and decoupled VMs have no tasks. API calls succeed.
 */
module VmDeletionLiveness {
  import opened Wrappers
  import opened Sets
  import opened VmLookup
  import opened VmDeletion

  // ---------- Prism over time ----------

  datatype Phase = Idle | Detaching(volumeGroup: string, left: nat) | Removing(left: nat)

  datatype PrismVm = PrismVm(name: string, decoupled: bool, disks: seq<Disk>, phase: Phase)

  /** By UUID. */
  type Vms = map<string, PrismVm>

  datatype World = World(m: Machine, nm: NutanixMachine, vms: Vms, v3Client: bool)

  function Reply(uuid: string, vm: PrismVm): Vm {
    Vm(Some(uuid), Some(vm.name), None, vm.disks)
  }

  /** The replies of Prism describe the state. */
  ghost predicate Shows(t: Visit, w: World) {
    && t.view.v3Client == w.v3Client
    && t.view.gets == (map uuid | uuid in w.vms :: Ok(Reply(uuid, w.vms[uuid])))
    && t.view.decoupled == (map uuid | uuid in w.vms :: Ok(w.vms[uuid].decoupled))
    && (forall name :: List(t.view, name, None).Ok?)
    && (forall name, uuid :: Named(t.view, name, uuid) <==> uuid in w.vms && w.vms[uuid].name == name)
    && t.tasks.Keys == w.vms.Keys
    && (forall uuid :: uuid in w.vms ==>
      t.tasks[uuid].Ok? && (InProgress(t.tasks[uuid].value) <==> !w.vms[uuid].phase.Idle?))
    && t.patchLands
  }

  ghost predicate Named(v: PrismView, name: string, uuid: string) {
    List(v, name, None).Ok? && exists j ::
      0 <= j < |List(v, name, None).value| && List(v, name, None).value[j].extId == Some(uuid)
  }

  function WithoutGroup(disks: seq<Disk>, volumeGroup: string): seq<Disk> {
    if disks == [] then []
    else WithoutGroup(disks[..|disks| - 1], volumeGroup)
         + if disks[|disks| - 1].volumeGroup == Some(Some(volumeGroup)) then [] else [disks[|disks| - 1]]
  }

  /** What a request starts; `duration` is how long its task will take. */
  function Started(vms: Vms, a: Action, duration: nat): Vms {
    match a
    case Detaches(volumeGroup, uuid) =>
      if uuid in vms then vms[uuid := vms[uuid].(phase := Detaching(volumeGroup, duration))] else vms
    case Deletes(uuid) => if uuid in vms then vms[uuid := vms[uuid].(phase := Removing(duration))] else vms
    case _ => vms
  }

  function TickOne(vm: PrismVm): PrismVm {
    match vm.phase
    case Idle => vm
    case Detaching(volumeGroup, left) =>
      if left == 0 then vm.(phase := Idle, disks := WithoutGroup(vm.disks, volumeGroup))
      else vm.(phase := Detaching(volumeGroup, left - 1))
    case Removing(left) => if left == 0 then vm else vm.(phase := Removing(left - 1))
  }

  function Tick(vms: Vms): Vms {
    map uuid | uuid in vms && vms[uuid].phase != Removing(0) :: TickOne(vms[uuid])
  }

  /** One reconcile and one tick. */
  function Round(w: World, t: Visit, duration: nat): World {
    var o := Reconciled(t, w.m, w.nm);
    World(w.m, o.nm, Tick(Started(w.vms, o.action, duration)), w.v3Client)
  }

  // ---------- the setting ----------

  predicate OnMetro(w: World) {
    w.v3Client && OnMetroPath(w.m, w.nm)
  }

  predicate Decoupled(w: World, uuid: string) {
    uuid in w.vms && w.vms[uuid].decoupled
  }

  /** The non-decoupled VMs with one of the machine's names. */
  function LiveNamed(w: World): set<string> {
    set uuid | uuid in w.vms && !w.vms[uuid].decoupled && w.vms[uuid].name in {w.m.name, w.nm.name}
  }

  function Recovered(w: World): string {
    Annotation(w.nm, RECOVERED_VM)
  }

  /** Names and UUIDs are not empty; one live VM per name pair; decoupled VMs have no tasks. */
  ghost predicate Quiet(w: World) {
    && w.m.name != "" && w.nm.name != "" && "" !in w.vms
    && (OnMetro(w) ==> |LiveNamed(w)| <= 1 && forall uuid :: Decoupled(w, uuid) ==> w.vms[uuid].phase.Idle?)
  }

  // ---------- what a reconcile aims at ----------

  datatype Aim = AimAt(uuid: string) | NoneLeft | AwaitRecovered

  predicate IsLive(w: World, uuid: string) {
    uuid in w.vms && !w.vms[uuid].decoupled
  }

  /** The recovered VM on record counts for nothing once it is decoupled too. */
  predicate HasRecord(w: World) {
    Recovered(w) != "" && !Decoupled(w, Recovered(w))
  }

  ghost function AimOf(w: World, recorded: string): Aim {
    if !OnMetro(w) then (if recorded in w.vms then AimAt(recorded) else NoneLeft)
    else if IsLive(w, recorded) then AimAt(recorded)
    else if HasRecord(w) then (if Recovered(w) in w.vms then AimAt(Recovered(w)) else NoneLeft)
    else if LiveNamed(w) == {} then (if Decoupled(w, recorded) then AwaitRecovered else NoneLeft)
    else var uuid :| uuid in LiveNamed(w); AimAt(uuid)
  }

  /** The recovered VM on record afterwards. */
  ghost function NextRecovered(w: World, recorded: string): string {
    if !OnMetro(w) || IsLive(w, recorded) || HasRecord(w) then Recovered(w)
    else match AimOf(w, recorded)
      case AimAt(uuid) => uuid
      case _ => ""
  }

  // ---------- the reconcile sees the state ----------

  lemma ReadsState(w: World, t: Visit, uuid: string)
    requires Quiet(w) && Shows(t, w)
    ensures IsDecoupled(t.view, uuid) == Ok(w.v3Client && Decoupled(w, uuid))
    ensures FindByUuid(t.view, uuid, None) == Ok(if uuid in w.vms then Some(Reply(uuid, w.vms[uuid])) else None)
  {
  }

  lemma ListsState(w: World, t: Visit, uuid: string)
    requires Quiet(w) && Shows(t, w)
    ensures IsListed(t.view, CandidateNames(w.m.name, w.nm.name), uuid)
       <==> uuid in w.vms && w.vms[uuid].name in {w.m.name, w.nm.name}
  {
    var names := CandidateNames(w.m.name, w.nm.name);
    forall name | name != "" ensures IsNamed(t.view, name, uuid) <==> uuid in w.vms && w.vms[uuid].name == name {
      assert Named(t.view, name, uuid) <==> uuid in w.vms && w.vms[uuid].name == name;
    }
    assert names[0] == w.m.name;
    if w.m.name != w.nm.name { assert names[1] == w.nm.name; }
  }

  lemma SearchesState(w: World, t: Visit)
    requires Quiet(w) && Shows(t, w) && OnMetro(w)
    ensures LiveNamed(w) == {} ==> FindNonDecoupled(t.view, CandidateNames(w.m.name, w.nm.name), None) == Ok(None)
    ensures forall uuid :: uuid in LiveNamed(w) ==>
              FindNonDecoupled(t.view, CandidateNames(w.m.name, w.nm.name), None) == Ok(Some(Reply(uuid, w.vms[uuid])))
  {
    var names := CandidateNames(w.m.name, w.nm.name);
    forall uuid ensures uuid in LiveNamed(w) <==> IsListed(t.view, names, uuid) && !Dropped(t.view, uuid, None) {
      ReadsState(w, t, uuid);
      ListsState(w, t, uuid);
    }
    forall uuid ensures IsDecoupled(t.view, uuid).Ok? && FindByUuid(t.view, uuid, None).Ok? { ReadsState(w, t, uuid); }
    SearchComplete(t.view, names, None, LiveNamed(w));
    forall uuid | uuid in LiveNamed(w)
      ensures FindNonDecoupled(t.view, names, None) == Ok(Some(Reply(uuid, w.vms[uuid])))
    {
      ReadsState(w, t, uuid);
    }
  }

  function Settled(w: World, aim: Aim): Choice
    requires aim.AimAt? ==> aim.uuid in w.vms
  {
    match aim
    case AimAt(uuid) => Target(Reply(uuid, w.vms[uuid]))
    case NoneLeft => NothingLeft
    case AwaitRecovered => WaitForRecovered
  }

  lemma AimExists(w: World, recorded: string)
    ensures AimOf(w, recorded).AimAt? ==> AimOf(w, recorded).uuid in w.vms
  {
  }

  /** The choice, and the record of the recovered VM, of a search by name. */
  lemma ByNameIs(w: World, t: Visit, nm: NutanixMachine, recorded: string)
    requires Quiet(w) && Shows(t, w) && OnMetro(w) && nm.name == w.nm.name
    requires !IsLive(w, recorded) && !HasRecord(w) && Annotation(nm, RECOVERED_VM) == ""
    ensures var aim, p := AimOf(w, recorded), PickByName(t.view, w.m, nm, Decoupled(w, recorded));
            && (aim.AimAt? ==>
              aim.uuid in w.vms && p == Pick(Annotated(nm, RECOVERED_VM, aim.uuid), Ok(Settled(w, aim))))
            && (!aim.AimAt? ==> p == Pick(nm, Ok(Settled(w, aim))))
  {
    SearchesState(w, t);
  }

  lemma RecoveredIs(w: World, t: Visit, nm: NutanixMachine, recorded: string)
    requires Quiet(w) && Shows(t, w) && OnMetro(w) && nm.name == w.nm.name
    requires !IsLive(w, recorded) && Annotation(nm, RECOVERED_VM) == Recovered(w)
    ensures var aim, p := AimOf(w, recorded), PickRecovered(t.view, w.m, nm, Decoupled(w, recorded));
            && (aim.AimAt? ==> aim.uuid in w.vms) && p.choice == Ok(Settled(w, aim))
            && Annotation(p.nm, RECOVERED_VM) == NextRecovered(w, recorded)
            && Annotation(p.nm, SKIPPED_DECOUPLED_VM) == Annotation(nm, SKIPPED_DECOUPLED_VM)
            && Annotation(p.nm, ACTIVE_PLACEMENT_PE) == Annotation(nm, ACTIVE_PLACEMENT_PE)
  {
    AimExists(w, recorded);
    ReadsState(w, t, Recovered(w));
    if HasRecord(w) {
      assert PickRecovered(t.view, w.m, nm, Decoupled(w, recorded)) == Pick(nm, Ok(Settled(w, AimOf(w, recorded))));
    } else if Recovered(w) == "" {
      ByNameIs(w, t, nm, recorded);
    } else {
      ByNameIs(w, t, Cleared(nm, RECOVERED_VM), recorded);
    }
  }

  /** A reconcile that knows the recorded UUID settles on its aim. */
  lemma AimIs(w: World, t: Visit, recorded: string)
    requires Quiet(w) && Shows(t, w) && recorded != ""
    ensures var aim, p := AimOf(w, recorded), PickVm(t.view, w.m, w.nm, recorded);
            && (aim.AimAt? ==> aim.uuid in w.vms) && p.choice == Ok(Settled(w, aim))
            && Annotation(p.nm, RECOVERED_VM) == NextRecovered(w, recorded)
            && (OnMetro(w) && !aim.NoneLeft? ==> OnMetroPath(w.m, p.nm))
            && (!OnMetro(w) ==> p.nm == w.nm)
  {
    AimExists(w, recorded);
    ReadsState(w, t, recorded);
    if OnMetro(w) && !IsLive(w, recorded) {
      if Decoupled(w, recorded) {
        var skipped := Annotated(w.nm, SKIPPED_DECOUPLED_VM, recorded);
        assert Annotation(skipped, RECOVERED_VM) == Recovered(w);
        RecoveredIs(w, t, skipped, recorded);
      } else {
        RecoveredIs(w, t, w.nm, recorded);
        if AimOf(w, recorded).AimAt? { MetroGoesOn(w, recorded); }
      }
    }
  }

  lemma MetroGoesOn(w: World, recorded: string)
    requires Quiet(w) && OnMetro(w) && AimOf(w, recorded).AimAt?
    ensures Recovered(w) != "" ==> NextRecovered(w, recorded) != ""
  {
  }

  // ---------- what a round does ----------

  /** No volume group without an ExtId, and a name that is the machine's. */
  predicate Good(w: World, vm: PrismVm) {
    vm.name in {w.m.name, w.nm.name} && Detachable(vm.disks)
  }

  predicate Detachable(disks: seq<Disk>) {
    forall i :: 0 <= i < |disks| ==> disks[i].volumeGroup != Some(None)
  }

  /** What is done about a VM in a given state. */
  function Due(w: World, uuid: string, vm: PrismVm): Action {
    if vm.name !in {w.m.name, w.nm.name} then Fails
    else if !vm.phase.Idle? then Waits
    else if !HasVolumeGroup(vm.disks) then Deletes(uuid)
    else match FirstVolumeGroup(vm.disks)
      case None => FindsNothingToDetach
      case Some(volumeGroup) => Detaches(volumeGroup, uuid)
  }

  function DueFor(w: World, aim: Aim): Action
    requires aim.AimAt? ==> aim.uuid in w.vms
  {
    match aim
    case AimAt(uuid) => Due(w, uuid, w.vms[uuid])
    case NoneLeft => ReleasesFinalizer
    case AwaitRecovered => Waits
  }

  lemma ActIsDue(w: World, t: Visit, nm: NutanixMachine, uuid: string, recorded: string)
    requires Quiet(w) && Shows(t, w) && uuid in w.vms && nm.name == w.nm.name
    ensures Act(t, w.m, nm, Reply(uuid, w.vms[uuid]), recorded) == Due(w, uuid, w.vms[uuid])
  {
  }

  lemma RoundIs(w: World, t: Visit, recorded: string)
    requires Quiet(w) && Shows(t, w) && GetVmUuid(w.m, w.nm) == Ok(recorded) && recorded != ""
    ensures var aim, o := AimOf(w, recorded), Reconciled(t, w.m, w.nm);
            && (aim.AimAt? ==> aim.uuid in w.vms)
            && o.action == DueFor(w, aim)
            && Annotation(o.nm, RECOVERED_VM) == NextRecovered(w, recorded)
            && o.nm == w.nm.(annotations := o.nm.annotations, finalizer := w.nm.finalizer && !aim.NoneLeft?)
            && (!aim.NoneLeft? ==> (OnMetro(w) <==> w.v3Client && OnMetroPath(w.m, o.nm)))
  {
    var p := PickVm(t.view, w.m, w.nm, recorded);
    AimIs(w, t, recorded);
    PickKeepsIdentity(t.view, w.m, w.nm, recorded);
    match AimOf(w, recorded)
    case AimAt(uuid) => ActIsDue(w, t, p.nm, uuid, recorded);
    case _ =>
  }

  // ---------- when deletion cannot end ----------

  /** A VM that no reconcile will ever ask Prism to remove. */
  predicate Stuck(w: World, uuid: string) {
    uuid in w.vms && !w.vms[uuid].phase.Removing? && !Good(w, w.vms[uuid])
  }

  /**
   What keeps the finalizer for ever: the recorded VM, the recovered one on record, or else the live
   one of the machine's name is stuck; or the recorded VM is decoupled and nothing was recovered.
   */
  ghost predicate Blocked(w: World, recorded: string) {
    if !OnMetro(w) then Stuck(w, recorded)
    else
      || (IsLive(w, recorded) && Stuck(w, recorded))
      || (HasRecord(w) && Stuck(w, Recovered(w)))
      || (!HasRecord(w) && OtherStuck(w, recorded))
      || (!HasRecord(w) && Decoupled(w, recorded) && LiveNamed(w) == {})
  }

  ghost predicate OtherStuck(w: World, recorded: string) {
    exists uuid :: uuid in LiveNamed(w) && uuid != recorded && Stuck(w, uuid)
  }

  /** Such a state has an aim, and one that is stuck has its VM for an aim. */
  lemma BlockedHasAim(w: World, recorded: string)
    requires Quiet(w) && Blocked(w, recorded)
    ensures !AimOf(w, recorded).NoneLeft?
  {
  }

  lemma AimNotStuck(w: World, recorded: string)
    requires Quiet(w) && !Blocked(w, recorded)
    ensures var aim := AimOf(w, recorded); !aim.AwaitRecovered? && (aim.AimAt? ==> !Stuck(w, aim.uuid))
  {
  }

  // ---------- one VM over one round ----------

  lemma {:induction false} WithoutGroupKeepsOthers(disks: seq<Disk>, volumeGroup: string)
    ensures forall d ::
              d in WithoutGroup(disks, volumeGroup) <==> d in disks && d.volumeGroup != Some(Some(volumeGroup))
  {
    if disks != [] {
      WithoutGroupKeepsOthers(disks[..|disks| - 1], volumeGroup);
      assert disks == disks[..|disks| - 1] + [disks[|disks| - 1]];
    }
  }

  lemma DetachableWithout(disks: seq<Disk>, volumeGroup: string)
    ensures Detachable(WithoutGroup(disks, volumeGroup)) <==> Detachable(disks)
  {
    WithoutGroupKeepsOthers(disks, volumeGroup);
    var rest := WithoutGroup(disks, volumeGroup);
    if !Detachable(disks) {
      var i :| 0 <= i < |disks| && disks[i].volumeGroup == Some(None);
      assert disks[i] in rest;
    }
    if !Detachable(rest) {
      var i :| 0 <= i < |rest| && rest[i].volumeGroup == Some(None);
      assert rest[i] in disks;
    }
  }

  lemma TickOneKeeps(w: World, vm: PrismVm)
    ensures var u := TickOne(vm);
            && u.name == vm.name && u.decoupled == vm.decoupled
            && (Good(w, u) <==> Good(w, vm))
            && (u.phase.Removing? <==> vm.phase.Removing?)
            && (vm.phase.Idle? ==> u == vm)
  {
    if vm.phase.Detaching? { DetachableWithout(vm.disks, vm.phase.volumeGroup); }
  }

  /** What one round may do to a VM. */
  ghost predicate Evolves(w: World, next: Vms, uuid: string, target: string) {
    && (uuid in next ==> uuid in w.vms)
    && (uuid in w.vms && uuid !in next ==> w.vms[uuid].phase.Removing? || (uuid == target && Good(w, w.vms[uuid])))
    && (uuid in w.vms && uuid in next ==>
          && next[uuid].name == w.vms[uuid].name && next[uuid].decoupled == w.vms[uuid].decoupled
          && (Good(w, next[uuid]) <==> Good(w, w.vms[uuid]))
          && (w.vms[uuid].phase.Removing? ==> next[uuid].phase.Removing?)
          && (next[uuid].phase.Removing? ==> w.vms[uuid].phase.Removing? || (uuid == target && Good(w, w.vms[uuid])))
          && (w.vms[uuid].phase.Idle? && uuid != target ==> next[uuid].phase.Idle?))
  }

  lemma {:induction false} FirstVolumeGroupIn(disks: seq<Disk>)
    ensures FirstVolumeGroup(disks) == None ==> forall d :: d in disks && d.volumeGroup.Some? ==>
        d.volumeGroup == Some(None)
    ensures FirstVolumeGroup(disks).Some? ==>
              exists i :: 0 <= i < |disks| && disks[i].volumeGroup == Some(FirstVolumeGroup(disks))
  {
    if disks != [] {
      var n := |disks| - 1;
      FirstVolumeGroupIn(disks[..n]);
      assert disks == disks[..n] + [disks[n]];
      if FirstVolumeGroup(disks[..n]).Some? {
        var i :| 0 <= i < n && disks[..n][i].volumeGroup == Some(FirstVolumeGroup(disks[..n]));
        assert disks[i].volumeGroup == Some(FirstVolumeGroup(disks));
      }
    }
  }

  lemma RoundEvolves(w: World, target: string, a: Action, duration: nat, uuid: string)
    requires target in w.vms ==> a == Due(w, target, w.vms[target])
    requires target !in w.vms ==> !a.Detaches? && !a.Deletes?
    ensures Evolves(w, Tick(Started(w.vms, a, duration)), uuid, target)
  {
    var started := Started(w.vms, a, duration);
    if uuid in w.vms {
      TickOneKeeps(w, started[uuid]);
      assert Good(w, started[uuid]) <==> Good(w, w.vms[uuid]);
      if a == Deletes(uuid) { assert Good(w, w.vms[uuid]); }
    }
  }

  // ---------- what every round keeps ----------

  /** On the metro path only live VMs are acted on. */
  lemma MetroAimIsLive(w: World, recorded: string)
    requires OnMetro(w) && AimOf(w, recorded).AimAt?
    ensures IsLive(w, AimOf(w, recorded).uuid)
  {
  }

  function TargetOf(aim: Aim): string {
    if aim.AimAt? then aim.uuid else ""
  }

  lemma NextEvolves(w: World, t: Visit, duration: nat, recorded: string, uuid: string)
    requires Quiet(w) && Shows(t, w) && GetVmUuid(w.m, w.nm) == Ok(recorded) && recorded != ""
    ensures Evolves(w, Round(w, t, duration).vms, uuid, TargetOf(AimOf(w, recorded)))
  {
    RoundIs(w, t, recorded);
    RoundEvolves(w, TargetOf(AimOf(w, recorded)), Reconciled(t, w.m, w.nm).action, duration, uuid);
  }

  lemma StuckStable(w: World, t: Visit, duration: nat, recorded: string, uuid: string)
    requires Quiet(w) && Shows(t, w) && GetVmUuid(w.m, w.nm) == Ok(recorded) && recorded != ""
    ensures var v := Round(w, t, duration);
            && (Stuck(v, uuid) <==> Stuck(w, uuid))
            && (Stuck(w, uuid) ==>
              (IsLive(v, uuid) <==> IsLive(w, uuid)) && (uuid in LiveNamed(v) <==> uuid in LiveNamed(w)))
  {
    RoundIs(w, t, recorded);
    NextEvolves(w, t, duration, recorded, uuid);
  }

  lemma RolesStable(w: World, t: Visit, duration: nat, recorded: string, uuid: string)
    requires Quiet(w) && Shows(t, w) && GetVmUuid(w.m, w.nm) == Ok(recorded) && recorded != "" && OnMetro(w)
    ensures var v := Round(w, t, duration);
            && (Decoupled(v, uuid) <==> Decoupled(w, uuid))
            && (Decoupled(v, uuid) ==> v.vms[uuid].phase.Idle?)
            && (uuid in LiveNamed(v) ==> uuid in LiveNamed(w)) && (IsLive(v, uuid) ==> IsLive(w, uuid))
  {
    RoundIs(w, t, recorded);
    NextEvolves(w, t, duration, recorded, uuid);
    if AimOf(w, recorded).AimAt? { MetroAimIsLive(w, recorded); }
  }

  lemma QuietStable(w: World, t: Visit, duration: nat, recorded: string)
    requires Quiet(w) && Shows(t, w) && GetVmUuid(w.m, w.nm) == Ok(recorded) && recorded != ""
    requires !AimOf(w, recorded).NoneLeft?
    ensures var v := Round(w, t, duration);
            && Quiet(v) && (OnMetro(v) <==> OnMetro(w))
            && GetVmUuid(v.m, v.nm) == Ok(recorded) && v.nm.finalizer == w.nm.finalizer
            && Recovered(v) == NextRecovered(w, recorded)
  {
    var v := Round(w, t, duration);
    RoundIs(w, t, recorded);
    NextEvolves(w, t, duration, recorded, "");
    if OnMetro(w) {
      forall uuid ensures Decoupled(v, uuid) ==> v.vms[uuid].phase.Idle? {
        RolesStable(w, t, duration, recorded, uuid);
      }
      forall uuid | uuid in LiveNamed(v) ensures uuid in LiveNamed(w) { RolesStable(w, t, duration, recorded, uuid); }
      SubsetSize(LiveNamed(v), LiveNamed(w));
    }
  }

  lemma OtherStuckStable(w: World, t: Visit, duration: nat, recorded: string)
    requires Quiet(w) && Shows(t, w) && GetVmUuid(w.m, w.nm) == Ok(recorded) && recorded != "" && OnMetro(w)
    ensures OtherStuck(Round(w, t, duration), recorded) <==> OtherStuck(w, recorded)
  {
    var v := Round(w, t, duration);
    if OtherStuck(w, recorded) {
      var uuid :| uuid in LiveNamed(w) && uuid != recorded && Stuck(w, uuid);
      StuckStable(w, t, duration, recorded, uuid);
    }
    if OtherStuck(v, recorded) {
      var uuid :| uuid in LiveNamed(v) && uuid != recorded && Stuck(v, uuid);
      StuckStable(w, t, duration, recorded, uuid);
    }
  }

  lemma OnlyLiveNamed(w: World, a: string, b: string)
    requires |LiveNamed(w)| <= 1 && a in LiveNamed(w) && b in LiveNamed(w)
    ensures a == b
  {
    assert |LiveNamed(w) - {a}| == 0;
  }

  /** No round makes a blocked deletion possible, or a possible one blocked. */
  lemma BlockedStable(w: World, t: Visit, duration: nat, recorded: string)
    requires Quiet(w) && Shows(t, w) && GetVmUuid(w.m, w.nm) == Ok(recorded) && recorded != ""
    requires !AimOf(w, recorded).NoneLeft?
    ensures Blocked(Round(w, t, duration), recorded) <==> Blocked(w, recorded)
  {
    var v := Round(w, t, duration);
    QuietStable(w, t, duration, recorded);
    StuckStable(w, t, duration, recorded, recorded);
    if OnMetro(w) {
      StuckStable(w, t, duration, recorded, Recovered(v));
      RolesStable(w, t, duration, recorded, recorded);
      RolesStable(w, t, duration, recorded, Recovered(v));
      OtherStuckStable(w, t, duration, recorded);
      forall uuid | uuid in LiveNamed(v) ensures uuid in LiveNamed(w) { RolesStable(w, t, duration, recorded, uuid); }
      if !IsLive(w, recorded) && !HasRecord(w) && LiveNamed(w) != {} {
        NewlyRecorded(w, v, recorded);
      }
    }
  }

  /** A live VM just put on record takes the place it had among the live ones. */
  lemma NewlyRecorded(w: World, v: World, recorded: string)
    requires Quiet(w) && OnMetro(w) && OnMetro(v) && !IsLive(w, recorded) && !HasRecord(w) && LiveNamed(w) != {}
    requires Recovered(v) == NextRecovered(w, recorded)
    requires !IsLive(v, recorded) && !Decoupled(v, Recovered(v))
    requires Stuck(v, Recovered(v)) <==> Stuck(w, Recovered(v))
    ensures Blocked(v, recorded) <==> Blocked(w, recorded)
  {
    var uuid := NextRecovered(w, recorded);
    assert uuid in LiveNamed(w);
    forall other | other in LiveNamed(w) ensures other == uuid { OnlyLiveNamed(w, other, uuid); }
  }

  // ---------- the measure ----------

  function GroupCount(disks: seq<Disk>): nat {
    if disks == [] then 0
    else GroupCount(disks[..|disks| - 1]) + if disks[|disks| - 1].volumeGroup.Some? then 1 else 0
  }

  /** Removals not yet asked for. */
  function Staying(vm: PrismVm): nat {
    if vm.phase.Removing? then 0 else 1
  }

  /** Volume-group disks whose detachment has not been asked for. */
  function Attached(vm: PrismVm): nat {
    match vm.phase
    case Idle => GroupCount(vm.disks)
    case Detaching(volumeGroup, _) => GroupCount(WithoutGroup(vm.disks, volumeGroup))
    case Removing(_) => 0
  }

  /** Ticks of unfinished tasks. */
  function Unfinished(vm: PrismVm): nat {
    match vm.phase
    case Idle => 0
    case Detaching(_, left) => left + 1
    case Removing(left) => left + 1
  }

  ghost function Total(vms: Vms, weight: PrismVm -> nat): nat
    decreases |vms|
  {
    if vms == map[] then 0
    else
      var uuid :| uuid in vms;
      SmallerWithout(vms, uuid);
      weight(vms[uuid]) + Total(vms - {uuid}, weight)
  }

  lemma SmallerWithout(vms: Vms, uuid: string)
    requires uuid in vms
    ensures |vms - {uuid}| == |vms| - 1
  {
    assert (vms - {uuid}).Keys == vms.Keys - {uuid};
    assert |vms.Keys - {uuid}| == |vms.Keys| - 1;
  }

  lemma {:induction false} TotalSplit(vms: Vms, weight: PrismVm -> nat, uuid: string)
    requires uuid in vms
    ensures Total(vms, weight) == weight(vms[uuid]) + Total(vms - {uuid}, weight)
    decreases |vms|
  {
    var first :| first in vms && Total(vms, weight) == weight(vms[first]) + Total(vms - {first}, weight);
    if first != uuid {
      SmallerWithout(vms, first);
      SmallerWithout(vms, uuid);
      TotalSplit(vms - {first}, weight, uuid);
      TotalSplit(vms - {uuid}, weight, first);
      assert vms - {first} - {uuid} == vms - {uuid} - {first};
    }
  }

  /** No VM gains weight, and none appears. */
  ghost predicate Lightens(a: Vms, b: Vms, weight: PrismVm -> nat) {
    forall uuid :: uuid in b ==> uuid in a && weight(b[uuid]) <= weight(a[uuid])
  }

  lemma {:induction false} TotalLightens(a: Vms, b: Vms, weight: PrismVm -> nat)
    requires Lightens(a, b, weight)
    ensures Total(b, weight) <= Total(a, weight)
    decreases |a|
  {
    if a == map[] {
      assert b == map[];
    } else {
      var uuid :| uuid in a;
      SmallerWithout(a, uuid);
      TotalSplit(a, weight, uuid);
      TotalLightens(a - {uuid}, b - {uuid}, weight);
      if uuid in b { TotalSplit(b, weight, uuid); } else { assert b - {uuid} == b; }
    }
  }

  lemma TotalDrops(a: Vms, b: Vms, weight: PrismVm -> nat, uuid: string)
    requires Lightens(a, b, weight) && uuid in a
    requires if uuid in b then weight(b[uuid]) < weight(a[uuid]) else weight(a[uuid]) > 0
    ensures Total(b, weight) < Total(a, weight)
  {
    TotalSplit(a, weight, uuid);
    TotalLightens(a - {uuid}, b - {uuid}, weight);
    if uuid in b { TotalSplit(b, weight, uuid); } else { assert b - {uuid} == b; }
  }

  lemma {:induction false} FewerGroups(disks: seq<Disk>, volumeGroup: string)
    ensures GroupCount(WithoutGroup(disks, volumeGroup)) <= GroupCount(disks)
    ensures FirstVolumeGroup(disks) == Some(volumeGroup) ==>
        GroupCount(WithoutGroup(disks, volumeGroup)) < GroupCount(disks)
  {
    if disks != [] {
      var n := |disks| - 1;
      FewerGroups(disks[..n], volumeGroup);
      var rest := WithoutGroup(disks[..n], volumeGroup);
      assert (rest + [disks[n]])[..|rest|] == rest;
      assert rest + [] == rest;
    }
  }

  /** A tick asks for nothing and finishes no task late. */
  lemma TickLightens(vms: Vms)
    ensures Lightens(vms, Tick(vms), Staying) && Lightens(vms, Tick(vms), Attached)
        && Lightens(vms, Tick(vms), Unfinished)
  {
  }

  lemma StartLightens(w: World, uuid: string, duration: nat)
    requires uuid in w.vms && w.vms[uuid].phase.Idle?
    ensures var a := Due(w, uuid, w.vms[uuid]);
            Lightens(w.vms, Started(w.vms, a, duration), Staying)
              && Lightens(w.vms, Started(w.vms, a, duration), Attached)
  {
    var a := Due(w, uuid, w.vms[uuid]);
    if a.Detaches? { FewerGroups(w.vms[uuid].disks, a.volumeGroup); }
  }

  ghost predicate Descends(a: Vms, b: Vms) {
    || Total(b, Staying) < Total(a, Staying)
    || (Total(b, Staying) == Total(a, Staying) && Total(b, Attached) < Total(a, Attached))
    || (Total(b, Staying) == Total(a, Staying) && Total(b, Attached) == Total(a, Attached)
        && Total(b, Unfinished) < Total(a, Unfinished))
  }

  /** While the VM aimed at is busy, its task gets on. */
  lemma BusyDescends(w: World, uuid: string)
    requires uuid in w.vms && !w.vms[uuid].phase.Idle?
    ensures Descends(w.vms, Tick(w.vms))
  {
    TickLightens(w.vms);
    TotalLightens(w.vms, Tick(w.vms), Staying);
    TotalLightens(w.vms, Tick(w.vms), Attached);
    TotalDrops(w.vms, Tick(w.vms), Unfinished, uuid);
  }

  /** A VM that is idle and not stuck is asked to go, or to give up a volume group. */
  lemma IdleDescends(w: World, uuid: string, duration: nat)
    requires uuid in w.vms && w.vms[uuid].phase.Idle? && Good(w, w.vms[uuid])
    ensures Descends(w.vms, Tick(Started(w.vms, Due(w, uuid, w.vms[uuid]), duration)))
  {
    var vm := w.vms[uuid];
    var a := Due(w, uuid, vm);
    var started := Started(w.vms, a, duration);
    StartLightens(w, uuid, duration);
    TickLightens(started);
    FirstVolumeGroupIn(vm.disks);
    if a.Deletes? {
      TotalDrops(w.vms, Tick(started), Staying, uuid);
    } else {
      assert a.Detaches? by {
        var i :| 0 <= i < |vm.disks| && vm.disks[i].volumeGroup.Some?;
        assert vm.disks[i] in vm.disks;
      }
      FewerGroups(vm.disks, a.volumeGroup);
      TotalLightens(w.vms, Tick(started), Staying);
      TotalDrops(w.vms, Tick(started), Attached, uuid);
    }
  }

  /** Unless deletion is blocked, a round lets the finalizer go or comes nearer to it. */
  lemma RoundDescends(w: World, t: Visit, duration: nat, recorded: string)
    requires Quiet(w) && Shows(t, w) && GetVmUuid(w.m, w.nm) == Ok(recorded) && recorded != ""
    requires !Blocked(w, recorded) && !AimOf(w, recorded).NoneLeft?
    ensures Descends(w.vms, Round(w, t, duration).vms)
  {
    RoundIs(w, t, recorded);
    AimNotStuck(w, recorded);
    var uuid := AimOf(w, recorded).uuid;
    if w.vms[uuid].phase.Idle? {
      IdleDescends(w, uuid, duration);
    } else {
      BusyDescends(w, uuid);
    }
  }

  // ---------- behaviours ----------

  /** Rounds without end, whatever the durations. */
  ghost predicate Behaviour(worlds: nat -> World, visits: nat -> Visit, durations: nat -> nat) {
    forall n: nat :: IsRound(worlds, visits, durations, n)
  }

  ghost predicate IsRound(worlds: nat -> World, visits: nat -> Visit, durations: nat -> nat, n: nat) {
    Shows(visits(n), worlds(n)) && worlds(n + 1) == Round(worlds(n), visits(n), durations(n))
  }

  /** What a caller can check before the first reconcile. */
  ghost predicate CanEnd(w: World) {
    match GetVmUuid(w.m, w.nm)
    case Err => false
    case Ok(recorded) => recorded == "" || !Blocked(w, recorded)
  }

  lemma {:induction false} BlockedForEver(worlds: nat -> World, visits: nat -> Visit, durations: nat -> nat, n: nat)
    requires Behaviour(worlds, visits, durations) && Quiet(worlds(0)) && worlds(0).nm.finalizer && !CanEnd(worlds(0))
    ensures worlds(n).nm.finalizer && !CanEnd(worlds(n)) && Quiet(worlds(n))
  {
    if n > 0 {
      BlockedForEver(worlds, visits, durations, n - 1);
      assert IsRound(worlds, visits, durations, n - 1);
      var w := worlds(n - 1);
      match GetVmUuid(w.m, w.nm)
      case Err => UnreadableStays(w, visits(n - 1), durations(n - 1));
      case Ok(recorded) =>
        BlockedHasAim(w, recorded);
        QuietStable(w, visits(n - 1), durations(n - 1), recorded);
        BlockedStable(w, visits(n - 1), durations(n - 1), recorded);
    }
  }

  /** An unreadable UUID fails every reconcile; Prism's own tasks run on. */
  lemma UnreadableStays(w: World, t: Visit, duration: nat)
    requires Quiet(w) && Shows(t, w) && GetVmUuid(w.m, w.nm) == Err
    ensures var v := Round(w, t, duration); v.nm == w.nm && Quiet(v)
  {
    var v := Round(w, t, duration);
    forall uuid ensures Evolves(w, v.vms, uuid, "") { RoundEvolves(w, "", Fails, duration, uuid); }
    assert "" !in v.vms;
    if OnMetro(w) {
      forall uuid | uuid in LiveNamed(v) ensures uuid in LiveNamed(w) { assert Evolves(w, v.vms, uuid, ""); }
      SubsetSize(LiveNamed(v), LiveNamed(w));
      forall uuid ensures Decoupled(v, uuid) ==> v.vms[uuid].phase.Idle? { assert Evolves(w, v.vms, uuid, ""); }
    }
  }

  lemma {:induction false} Ends(worlds: nat -> World, visits: nat -> Visit, durations: nat -> nat, n: nat)
      returns (end: nat)
    requires Behaviour(worlds, visits, durations) && Quiet(worlds(n)) && CanEnd(worlds(n))
    ensures !worlds(end).nm.finalizer
    decreases Total(worlds(n).vms, Staying), Total(worlds(n).vms, Attached), Total(worlds(n).vms, Unfinished)
  {
    assert IsRound(worlds, visits, durations, n);
    var w := worlds(n);
    var recorded := GetVmUuid(w.m, w.nm).value;
    end := n + 1;
    if recorded != "" {
      RoundIs(w, visits(n), recorded);
      if !AimOf(w, recorded).NoneLeft? {
        QuietStable(w, visits(n), durations(n), recorded);
        BlockedStable(w, visits(n), durations(n), recorded);
        RoundDescends(w, visits(n), durations(n), recorded);
        end := Ends(worlds, visits, durations, n + 1);
      }
    }
  }

  /**
   Deletion ends if and only if the first state is not blocked: whatever the tasks take, repeated
   reconciles then reach the removal of the finalizer, and otherwise none of them ever does.
   */
  lemma DeletionEndsIff(worlds: nat -> World, visits: nat -> Visit, durations: nat -> nat)
    requires Behaviour(worlds, visits, durations) && Quiet(worlds(0)) && worlds(0).nm.finalizer
    ensures (exists n: nat :: !worlds(n).nm.finalizer) <==> CanEnd(worlds(0))
  {
    if CanEnd(worlds(0)) {
      var end := Ends(worlds, visits, durations, 0);
    } else {
      forall n: nat ensures worlds(n).nm.finalizer { BlockedForEver(worlds, visits, durations, n); }
    }
  }
}
