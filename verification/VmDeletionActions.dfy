/**
 What a reconcile of a deleted machine does, for any replies of Prism and on every path: which VM it settles
 on, and exactly when it deletes, detaches or waits.
 */
module VmDeletionActions {
  import opened Wrappers
  import opened VmLookup
  import opened VmDeletion

  // ---------- the VM settled on ----------

  /** The VM recovered in place of the recorded one: that on record unless decoupled too, or else one by name. */
  predicate RecoveredIs(v: PrismView, m: Machine, nm: NutanixMachine, vm: Vm) {
    var r := Annotation(nm, RECOVERED_VM);
    if r != "" && IsDecoupled(v, r) != Ok(true) then ReadsLive(v, r, vm)
    else FindNonDecoupled(v, CandidateNames(m.name, nm.name), None) == Ok(Some(vm)) && vm.extId !in {None, Some("")}
  }

  /** The recorded VM is decoupled, gone or unreadable. */
  predicate Unusable(v: PrismView, recorded: string) {
    || IsDecoupled(v, recorded) == Ok(true)
    || (IsDecoupled(v, recorded) == Ok(false) && (recorded !in v.gets || v.gets[recorded].Err?))
  }

  predicate SettlesOn(t: Visit, m: Machine, nm: NutanixMachine, recorded: string, vm: Vm) {
    if ByUuidOnly(t, m, nm) then recorded in t.view.gets && t.view.gets[recorded] == Ok(vm)
    else ReadsLive(t.view, recorded, vm) || (Unusable(t.view, recorded) && RecoveredIs(t.view, m, nm, vm))
  }

  lemma RecoveredIff(v: PrismView, m: Machine, nm: NutanixMachine, waitIfMissing: bool, vm: Vm)
    ensures PickRecovered(v, m, nm, waitIfMissing).choice == Ok(Target(vm)) <==> RecoveredIs(v, m, nm, vm)
  {
  }

  /** A recorded VM that is live; otherwise, on the metro path, what was recovered in its place. */
  lemma SettlesIff(t: Visit, m: Machine, nm: NutanixMachine, recorded: string, vm: Vm)
    ensures PickVm(t.view, m, nm, recorded).choice == Ok(Target(vm)) <==> SettlesOn(t, m, nm, recorded, vm)
  {
    var skipped := Annotated(nm, SKIPPED_DECOUPLED_VM, recorded);
    assert Annotation(skipped, RECOVERED_VM) == Annotation(nm, RECOVERED_VM);
    RecoveredIff(t.view, m, nm, false, vm);
    RecoveredIff(t.view, m, skipped, true, vm);
  }

  // ---------- what is done about it ----------

  /** The machine's VM, named by that UUID, may be acted on as far as its name goes. */
  predicate Aims(t: Visit, m: Machine, nm: NutanixMachine, recorded: string, vm: Vm, uuid: string) {
    SettlesOn(t, m, nm, recorded, vm) && NamedBy(vm, recorded, uuid) && vm.name in {Some(m.name), Some(nm.name)}
  }

  /** Its tasks can be read, and none is running or queued. */
  ghost predicate Idle(t: Visit, uuid: string) {
    uuid in t.tasks ==> t.tasks[uuid].Ok? && NoneOnTheWay(t.tasks[uuid].value)
  }

  ghost predicate Busy(t: Visit, uuid: string) {
    uuid in t.tasks && t.tasks[uuid].Ok? && !NoneOnTheWay(t.tasks[uuid].value)
  }

  lemma ActIs(t: Visit, m: Machine, nm: NutanixMachine, later: NutanixMachine, recorded: string, vm: Vm)
    requires later.name == nm.name
    ensures var uuid := TargetUuid(vm, recorded);
            var named := NamedBy(vm, recorded, uuid) && vm.name in {Some(m.name), Some(nm.name)};
            var action := Act(t, m, later, vm, recorded);
            && (action.Waits? <==> named && Busy(t, uuid))
            && (action == Deletes(uuid)
              <==> named && Idle(t, uuid) && forall d :: d in vm.disks ==> d.volumeGroup.None?)
            && (action.Deletes? ==> action.vm == uuid) && (action.Detaches? ==> action.from == uuid)
            && !action.ReleasesFinalizer?
  {
    var uuid := TargetUuid(vm, recorded);
    if uuid in t.tasks && t.tasks[uuid].Ok? { NoneInProgress(t.tasks[uuid].value); }
    NoneAttached(vm.disks);
  }

  lemma OneName(vm: Vm, recorded: string, uuid: string)
    requires recorded != ""
    ensures NamedBy(vm, recorded, uuid) <==> uuid == TargetUuid(vm, recorded) != ""
  {
  }

  /** The action of a reconcile that settles on a VM. */
  lemma SettledIs(t: Visit, m: Machine, nm: NutanixMachine, recorded: string)
    requires GetVmUuid(m, nm) == Ok(recorded) && recorded != ""
    ensures var p := PickVm(t.view, m, nm, recorded);
            && p.nm.name == nm.name
            && (p.choice.Ok? && p.choice.value.Target? ==>
                  Reconciled(t, m, nm).action == Act(t, m, p.nm, p.choice.value.vm, recorded))
            && (!(p.choice.Ok? && p.choice.value.Target?) ==> !Reconciled(t, m, nm).action.Deletes?
                                                              && !Reconciled(t, m, nm).action.Detaches?)
            && (!(p.choice.Ok? && p.choice.value.Target?) ==>
                  (Reconciled(t, m, nm).action.Waits? <==> p.choice == Ok(WaitForRecovered)))
  {
    PickKeepsIdentity(t.view, m, nm, recorded);
  }

  ghost predicate MustDelete(t: Visit, m: Machine, nm: NutanixMachine, recorded: string, vm: Vm, uuid: string) {
    Aims(t, m, nm, recorded, vm, uuid) && Idle(t, uuid) && forall d :: d in vm.disks ==> d.volumeGroup.None?
  }

  /**
   Exactly when a VM is deleted: it is the one settled on, named by its own UUID or else by the one on
   record, of a matching name, without tasks under way and without volume groups.
   */
  lemma DeletesExactly(t: Visit, m: Machine, nm: NutanixMachine, recorded: string, uuid: string)
    requires GetVmUuid(m, nm) == Ok(recorded) && recorded != ""
    ensures Reconciled(t, m, nm).action == Deletes(uuid) <==> exists vm :: MustDelete(t, m, nm, recorded, vm, uuid)
  {
    var p := PickVm(t.view, m, nm, recorded);
    SettledIs(t, m, nm, recorded);
    if p.choice.Ok? && p.choice.value.Target? {
      var vm := p.choice.value.vm;
      SettlesIff(t, m, nm, recorded, vm);
      OneName(vm, recorded, uuid);
      ActIs(t, m, nm, p.nm, recorded, vm);
      assert Reconciled(t, m, nm).action == Deletes(uuid) ==> MustDelete(t, m, nm, recorded, vm, uuid);
    }
    forall vm | MustDelete(t, m, nm, recorded, vm, uuid) ensures Reconciled(t, m, nm).action == Deletes(uuid) {
      SettlesIff(t, m, nm, recorded, vm);
      OneName(vm, recorded, uuid);
    }
  }

  ghost predicate MustDetach(
      t: Visit, m: Machine, nm: NutanixMachine, recorded: string, vm: Vm, volumeGroup: string, uuid: string)
  {
    Aims(t, m, nm, recorded, vm, uuid) && Idle(t, uuid) && exists i: nat :: NamesFirst(vm.disks, i, volumeGroup)
  }

  lemma DetachIs(t: Visit, m: Machine, nm: NutanixMachine, later: NutanixMachine, recorded: string, vm: Vm,
      volumeGroup: string)
    requires later.name == nm.name
    ensures var uuid := TargetUuid(vm, recorded);
            var named := NamedBy(vm, recorded, uuid) && vm.name in {Some(m.name), Some(nm.name)};
            Act(t, m, later, vm, recorded) == Detaches(volumeGroup, uuid) <==>
            named && Idle(t, uuid) && exists i: nat :: NamesFirst(vm.disks, i, volumeGroup)
  {
    var uuid := TargetUuid(vm, recorded);
    if uuid in t.tasks && t.tasks[uuid].Ok? { NoneInProgress(t.tasks[uuid].value); }
    FirstVolumeGroupIs(vm.disks, volumeGroup);
    NoneAttached(vm.disks);
    if i: nat :| NamesFirst(vm.disks, i, volumeGroup) { assert vm.disks[i] in vm.disks; }
  }

  /** Exactly when a volume group is detached: the first that can be named, from a VM that is idle. */
  lemma DetachesExactly(
      t: Visit, m: Machine, nm: NutanixMachine, recorded: string, volumeGroup: string, uuid: string)
    requires GetVmUuid(m, nm) == Ok(recorded) && recorded != ""
    ensures Reconciled(t, m, nm).action == Detaches(volumeGroup, uuid)
       <==> exists vm :: MustDetach(t, m, nm, recorded, vm, volumeGroup, uuid)
  {
    var p := PickVm(t.view, m, nm, recorded);
    SettledIs(t, m, nm, recorded);
    if p.choice.Ok? && p.choice.value.Target? {
      var vm := p.choice.value.vm;
      SettlesIff(t, m, nm, recorded, vm);
      OneName(vm, recorded, uuid);
      ActIs(t, m, nm, p.nm, recorded, vm);
      DetachIs(t, m, nm, p.nm, recorded, vm, volumeGroup);
      assert Reconciled(t, m, nm).action == Detaches(volumeGroup, uuid) ==>
          MustDetach(t, m, nm, recorded, vm, volumeGroup, uuid);
    }
    forall vm | MustDetach(t, m, nm, recorded, vm, volumeGroup, uuid)
      ensures Reconciled(t, m, nm).action == Detaches(volumeGroup, uuid)
    {
      SettlesIff(t, m, nm, recorded, vm);
      OneName(vm, recorded, uuid);
    }
  }

  /** The recorded VM is decoupled, and no recovered one has appeared yet. */
  predicate AwaitsRecovery(t: Visit, m: Machine, nm: NutanixMachine, recorded: string) {
    !ByUuidOnly(t, m, nm) && IsDecoupled(t.view, recorded) == Ok(true) && NobodyRecovered(t.view, m, nm)
  }

  lemma AwaitsIff(t: Visit, m: Machine, nm: NutanixMachine, recorded: string)
    ensures PickVm(t.view, m, nm, recorded).choice == Ok(WaitForRecovered) <==> AwaitsRecovery(t, m, nm, recorded)
  {
    assert Annotation(Annotated(nm, SKIPPED_DECOUPLED_VM, recorded), RECOVERED_VM) == Annotation(nm, RECOVERED_VM);
  }

  ghost predicate MustWait(t: Visit, m: Machine, nm: NutanixMachine, recorded: string, vm: Vm, uuid: string) {
    Aims(t, m, nm, recorded, vm, uuid) && Busy(t, uuid)
  }

  /** Exactly when it waits: for a recovered VM to appear, or for a task of the VM settled on. */
  lemma WaitsExactly(t: Visit, m: Machine, nm: NutanixMachine, recorded: string)
    requires GetVmUuid(m, nm) == Ok(recorded) && recorded != ""
    ensures Reconciled(t, m, nm).action.Waits?
       <==> AwaitsRecovery(t, m, nm, recorded) || exists vm, uuid :: MustWait(t, m, nm, recorded, vm, uuid)
  {
    var p := PickVm(t.view, m, nm, recorded);
    SettledIs(t, m, nm, recorded);
    AwaitsIff(t, m, nm, recorded);
    if p.choice.Ok? && p.choice.value.Target? {
      var vm := p.choice.value.vm;
      SettlesIff(t, m, nm, recorded, vm);
      ActIs(t, m, nm, p.nm, recorded, vm);
      assert Reconciled(t, m, nm).action.Waits? ==> MustWait(t, m, nm, recorded, vm, TargetUuid(vm, recorded));
    }
    forall vm, uuid | MustWait(t, m, nm, recorded, vm, uuid) ensures Reconciled(t, m, nm).action.Waits? {
      SettlesIff(t, m, nm, recorded, vm);
      OneName(vm, recorded, uuid);
    }
  }
}
