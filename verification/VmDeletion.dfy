/**
 Deleting the VM of a NutanixMachine: `reconcileDelete`, `vmToDelete` and
 `resolveRecoveredVMForDelete`.

 On the metro path a VM that disaster recovery has decoupled must be left alone, and the VM it was
 recovered as, under a new UUID, must be deleted in its place. Two annotations carry that from one
 reconcile to the next. Each reconcile sees its own, arbitrary replies of Prism.
 */
module VmDeletion {
  import opened Wrappers
  import opened VmLookup

  // ---------- what one reconcile meets ----------

  datatype TaskStatus = Running | Queued | Ended

  datatype VmTask = VmTask(extId: Option<string>, status: Option<TaskStatus>)

  /** The replies of Prism to one reconcile, and whether its deferred patch is persisted. */
  datatype Visit = Visit(
    view: PrismView,
    tasks: map<string, Result<seq<VmTask>>>,
    patchLands: bool)

  /** How a reconcile ends; the last two are requests to Prism, refused or not. */
  datatype Action =
    | ReleasesFinalizer
    | Waits
    | Fails
    | FindsNothingToDetach
    | Detaches(volumeGroup: string, from: string)
    | Deletes(vm: string)

  /** What `vmToDelete` settles on. */
  datatype Choice = Target(vm: Vm) | WaitForRecovered | NothingLeft

  /** With the annotations as the search leaves them, failed or not. */
  datatype Pick = Pick(nm: NutanixMachine, choice: Result<Choice>)

  datatype Outcome = Outcome(nm: NutanixMachine, action: Action)

  // ---------- the decisions as functions ----------

  function Cleared(nm: NutanixMachine, key: string): NutanixMachine {
    nm.(annotations := nm.annotations - {key})
  }

  function Absent(waitIfMissing: bool): Choice {
    if waitIfMissing then WaitForRecovered else NothingLeft
  }

  function PickByName(v: PrismView, m: Machine, nm: NutanixMachine, waitIfMissing: bool): Pick {
    match FindNonDecoupled(v, CandidateNames(m.name, nm.name), None)
    case Err => Pick(nm, Err)
    case Ok(None) => Pick(nm, Ok(Absent(waitIfMissing)))
    case Ok(Some(live)) =>
      if Id(live) == "" then Pick(nm, Ok(Absent(waitIfMissing)))
      else Pick(Annotated(nm, RECOVERED_VM, Id(live)), Ok(Target(live)))
  }

  function TargetIfFound(found: Result<Option<Vm>>): Result<Choice> {
    match found
    case Err => Err
    case Ok(None) => Ok(NothingLeft)
    case Ok(Some(vm)) => Ok(Target(vm))
  }

  function PickRecovered(v: PrismView, m: Machine, nm: NutanixMachine, waitIfMissing: bool): Pick {
    var recovered := Annotation(nm, RECOVERED_VM);
    if recovered == "" then PickByName(v, m, nm, waitIfMissing)
    else match IsDecoupled(v, recovered)
      case Err => Pick(nm, Err)
      case Ok(true) => PickByName(v, m, Cleared(nm, RECOVERED_VM), waitIfMissing)
      case Ok(false) => Pick(nm, TargetIfFound(FindByUuid(v, recovered, None)))
  }

  function PickVm(v: PrismView, m: Machine, nm: NutanixMachine, recorded: string): Pick {
    if !v.v3Client || !OnMetroPath(m, nm) then Pick(nm, TargetIfFound(FindByUuid(v, recorded, None)))
    else match IsDecoupled(v, recorded)
      case Err => Pick(nm, Err)
      case Ok(true) => PickRecovered(v, m, Annotated(nm, SKIPPED_DECOUPLED_VM, recorded), true)
      case Ok(false) =>
        match FindByUuid(v, recorded, None)
        case Ok(Some(vm)) => Pick(nm, Ok(Target(vm)))
        case Ok(None) => PickRecovered(v, m, nm, false)
        case Err =>
          var p := PickRecovered(v, m, nm, false);
          if p.choice.Ok? && p.choice.value.Target? then p else p.(choice := Err)
  }

  predicate TaskRuns(t: VmTask) {
    t.extId.Some? && (t.status == Some(Running) || t.status == Some(Queued))
  }

  function TasksOf(tasks: map<string, Result<seq<VmTask>>>, uuid: string): Result<seq<VmTask>> {
    if uuid in tasks then tasks[uuid] else Ok([])
  }

  predicate InProgress(ts: seq<VmTask>) {
    exists i :: 0 <= i < |ts| && TaskRuns(ts[i])
  }

  /** The first volume group that can be named, of the VM's disks. */
  function FirstVolumeGroup(disks: seq<Disk>): Option<string> {
    if disks == [] then None
    else
      var first := FirstVolumeGroup(disks[..|disks| - 1]);
      var last := disks[|disks| - 1].volumeGroup;
      if first.Some? then first else if last.Some? then last.value else None
  }

  predicate HasVolumeGroup(disks: seq<Disk>) {
    exists i :: 0 <= i < |disks| && disks[i].volumeGroup.Some?
  }

  /** `ptr.Deref(vm.ExtId, vmUUID)`. */
  function TargetUuid(vm: Vm, recorded: string): string {
    if vm.extId.Some? then vm.extId.value else recorded
  }

  predicate NameMatches(vm: Vm, m: Machine, nm: NutanixMachine) {
    vm.name == Some(m.name) || vm.name == Some(nm.name)
  }

  /** What is done about a VM that has been settled on. */
  function Act(t: Visit, m: Machine, nm: NutanixMachine, vm: Vm, recorded: string): Action {
    var uuid := TargetUuid(vm, recorded);
    if uuid == "" || !NameMatches(vm, m, nm) then Fails
    else match TasksOf(t.tasks, uuid)
      case Err => Fails
      case Ok(ts) =>
        if InProgress(ts) then Waits
        else if !HasVolumeGroup(vm.disks) then Deletes(uuid)
        else match FirstVolumeGroup(vm.disks)
          case None => FindsNothingToDetach
          case Some(volumeGroup) => Detaches(volumeGroup, uuid)
  }

  function Released(nm: NutanixMachine): Outcome {
    Outcome(nm.(finalizer := false), ReleasesFinalizer)
  }

  /** What follows from the choice of a VM. */
  function Decided(t: Visit, m: Machine, p: Pick, recorded: string): Outcome {
    match p.choice
    case Err => Outcome(p.nm, Fails)
    case Ok(WaitForRecovered) => Outcome(p.nm, Waits)
    case Ok(NothingLeft) => Released(p.nm)
    case Ok(Target(vm)) => Outcome(p.nm, Act(t, m, p.nm, vm, recorded))
  }

  /** `reconcileDelete`. */
  function Reconciled(t: Visit, m: Machine, nm: NutanixMachine): Outcome {
    match GetVmUuid(m, nm)
    case Err => Outcome(nm, Fails)
    case Ok(recorded) =>
      if recorded == "" then Released(nm) else Decided(t, m, PickVm(t.view, m, nm, recorded), recorded)
  }

  // ---------- the methods ----------

  /** `VmHasTaskInProgress`. */
  method VmHasTaskInProgress(tasks: map<string, Result<seq<VmTask>>>, uuid: string) returns (r: Result<bool>)
    ensures uuid == "" ==> r == Err
    ensures uuid != "" ==>
              r == if TasksOf(tasks, uuid).Ok? then Ok(InProgress(TasksOf(tasks, uuid).value)) else Err
  {
    if uuid == "" { return Err; }
    var listed := TasksOf(tasks, uuid);
    if listed.Err? { return Err; }
    var ts := listed.value;
    var running, queued := 0, 0;
    for i := 0 to |ts|
      invariant running >= 0 && queued >= 0
      invariant running + queued > 0 <==> exists j :: 0 <= j < i && TaskRuns(ts[j])
    {
      if ts[i].status.Some? && ts[i].extId.Some? {
        match ts[i].status.value
        case Running => running := running + 1;
        case Queued => queued := queued + 1;
        case Ended =>
      }
    }
    return Ok(running > 0 || queued > 0);
  }

  method VolumeGroupDetachNeeded(disks: seq<Disk>) returns (needed: bool)
    ensures needed <==> HasVolumeGroup(disks)
  {
    for i := 0 to |disks|
      invariant forall j :: 0 <= j < i ==> disks[j].volumeGroup.None?
    {
      if disks[i].volumeGroup.Some? { return true; }
    }
    return false;
  }

  /** `detachVolumeGroupsFromVM`: at most one request; `volumeGroup` is the one it is for. */
  method DetachVolumeGroups(disks: seq<Disk>) returns (volumeGroup: Option<string>)
    ensures volumeGroup == FirstVolumeGroup(disks)
  {
    for i := 0 to |disks|
      invariant FirstVolumeGroup(disks[..i]) == None
    {
      assert disks[..i + 1][..i] == disks[..i];
      if disks[i].volumeGroup.None? { continue; }
      if disks[i].volumeGroup.value.None? { continue; }
      FirstOfPrefix(disks, i + 1);
      return disks[i].volumeGroup.value;
    }
    assert disks[..|disks|] == disks;
    return None;
  }

  lemma {:induction false} FirstOfPrefix(disks: seq<Disk>, i: nat)
    requires i <= |disks| && FirstVolumeGroup(disks[..i]).Some?
    ensures FirstVolumeGroup(disks) == FirstVolumeGroup(disks[..i])
  {
    if i < |disks| {
      assert disks[..|disks| - 1][..i] == disks[..i];
      FirstOfPrefix(disks[..|disks| - 1], i);
    } else {
      assert disks[..i] == disks;
    }
  }

  /** `rctx` while a NutanixMachine is being deleted. */
  class MachineContext {
    const machine: Machine
    const visit: Visit
    var nm: NutanixMachine

    constructor (machine: Machine, visit: Visit, nm: NutanixMachine)
      ensures this.machine == machine && this.visit == visit && this.nm == nm
    {
      this.machine, this.visit, this.nm := machine, visit, nm;
    }

    method ResolveRecoveredVmForDelete(waitIfMissing: bool) returns (r: Result<Choice>)
      modifies this`nm
      ensures Pick(nm, r) == PickRecovered(visit.view, machine, old(nm), waitIfMissing)
    {
      var recovered := Annotation(nm, RECOVERED_VM);
      if recovered != "" {
        var decoupled := IsDecoupled(visit.view, recovered);
        if decoupled.Err? { return Err; }
        if decoupled.value {
          nm := Cleared(nm, RECOVERED_VM);
        } else {
          var vm := FindByUuid(visit.view, recovered, None);
          if vm.Err? { return Err; }
          if vm.value.None? { return Ok(NothingLeft); }
          return Ok(Target(vm.value.value));
        }
      }
      var live := FindNonDecoupledVmByName(visit.view, CandidateNames(machine.name, nm.name), None);
      if live.Err? { return Err; }
      if live.value.None? || live.value.value.extId.None? || live.value.value.extId.value == "" {
        return Ok(Absent(waitIfMissing));
      }
      nm := Annotated(nm, RECOVERED_VM, live.value.value.extId.value);
      return Ok(Target(live.value.value));
    }

    method VmToDelete(recorded: string) returns (r: Result<Choice>)
      modifies this`nm
      ensures Pick(nm, r) == PickVm(visit.view, machine, old(nm), recorded)
    {
      if !visit.view.v3Client || !OnMetroPath(machine, nm) {
        return TargetIfFound(FindByUuid(visit.view, recorded, None));
      }
      var decoupled := IsDecoupled(visit.view, recorded);
      if decoupled.Err? { return Err; }
      if decoupled.value {
        nm := Annotated(nm, SKIPPED_DECOUPLED_VM, recorded);
        r := ResolveRecoveredVmForDelete(true);
        return;
      }
      var vm := FindByUuid(visit.view, recorded, None);
      if vm.Err? {
        r := ResolveRecoveredVmForDelete(false);
        if r.Err? { return Err; }
        if r.value.Target? { return; }
        return Err;
      }
      if vm.value.Some? { return Ok(Target(vm.value.value)); }
      r := ResolveRecoveredVmForDelete(false);
    }

    method ReconcileDelete() returns (action: Action)
      modifies this`nm
      ensures Outcome(nm, action) == Reconciled(visit, machine, old(nm))
    {
      var recorded := GetVmUuid(machine, nm);
      if recorded.Err? { return Fails; }
      if recorded.value == "" {
        nm := nm.(finalizer := false);
        return ReleasesFinalizer;
      }
      var choice := VmToDelete(recorded.value);
      if choice.Err? { return Fails; }
      if choice.value.WaitForRecovered? { return Waits; }
      if choice.value.NothingLeft? {
        nm := nm.(finalizer := false);
        return ReleasesFinalizer;
      }
      action := DeleteTarget(choice.value.vm, recorded.value);
    }

    method DeleteTarget(vm: Vm, recorded: string) returns (action: Action)
      ensures action == Act(visit, machine, nm, vm, recorded)
    {
      if vm.name.None? { return Fails; }
      var uuid := TargetUuid(vm, recorded);
      if uuid == "" { return Fails; }
      if vm.name.value != machine.name && vm.name.value != nm.name { return Fails; }
      var busy := VmHasTaskInProgress(visit.tasks, uuid);
      if busy.Err? { return Fails; }
      if busy.value { return Waits; }
      var detach := VolumeGroupDetachNeeded(vm.disks);
      if detach {
        var volumeGroup := DetachVolumeGroups(vm.disks);
        if volumeGroup.None? { return FindsNothingToDetach; }
        return Detaches(volumeGroup.value, uuid);
      }
      return Deletes(uuid);
    }
  }

  // ---------- what may be deleted ----------

  /** On the metro path, what is settled on was read as live in the same reconcile. */
  lemma TargetIsLive(v: PrismView, m: Machine, nm: NutanixMachine, recorded: string, vm: Vm)
    requires v.v3Client && OnMetroPath(m, nm)
    requires PickVm(v, m, nm, recorded).choice == Ok(Target(vm))
    ensures exists uuid :: ReadsLive(v, uuid, vm)
  {
    var names := CandidateNames(m.name, nm.name);
    SearchSound(v, names, None);
    if FindNonDecoupled(v, names, None) == Ok(Some(vm)) {
      var uuid :| FoundIn(v, names, None, uuid, vm) && DroppedBut(v, names, None, {uuid});
      assert ReadsLive(v, uuid, vm);
    } else if IsDecoupled(v, recorded) == Ok(false) && FindByUuid(v, recorded, None) == Ok(Some(vm)) {
      assert ReadsLive(v, recorded, vm);
    } else {
      assert ReadsLive(v, Annotation(nm, RECOVERED_VM), vm);
    }
  }

  /** Every condition under which a VM is deleted. */
  ghost predicate MayDelete(t: Visit, m: Machine, nm: NutanixMachine, uuid: string, vm: Vm) {
    && vm.name in {Some(m.name), Some(nm.name)}
    && TasksOf(t.tasks, uuid).Ok? && NoneOnTheWay(TasksOf(t.tasks, uuid).value)
    && (forall d :: d in vm.disks ==> d.volumeGroup.None?)
  }

  /** No task that Prism could wait for is running or queued. */
  ghost predicate NoneOnTheWay(ts: seq<VmTask>) {
    forall task :: task in ts && task.extId.Some? ==> task.status !in {Some(Running), Some(Queued)}
  }

  lemma NoneInProgress(ts: seq<VmTask>)
    ensures InProgress(ts) <==> !NoneOnTheWay(ts)
  {
    if InProgress(ts) {
      var i :| 0 <= i < |ts| && TaskRuns(ts[i]);
      assert ts[i] in ts;
    }
  }

  lemma NoneAttached(disks: seq<Disk>)
    ensures HasVolumeGroup(disks) <==> exists d :: d in disks && d.volumeGroup.Some?
  {
    if HasVolumeGroup(disks) {
      var i :| 0 <= i < |disks| && disks[i].volumeGroup.Some?;
      assert disks[i] in disks;
    }
  }

  /**
   A delete request on the metro path is for the VM settled on: read as live in that reconcile, with a
   matching name, no running or queued task and no volume group. It names the ExtId of Prism's reply, and
   the recorded UUID when the reply has none.
   */
  lemma DeleteTargetSafe(t: Visit, m: Machine, nm: NutanixMachine, recorded: string, uuid: string)
    requires t.view.v3Client && OnMetroPath(m, nm) && GetVmUuid(m, nm) == Ok(recorded)
    requires Reconciled(t, m, nm).action == Deletes(uuid)
    ensures exists vm, read ::
              && PickVm(t.view, m, nm, recorded).choice == Ok(Target(vm))
              && ReadsLive(t.view, read, vm) && MayDelete(t, m, nm, uuid, vm)
              && uuid == TargetUuid(vm, recorded)
  {
    var vm := PickVm(t.view, m, nm, recorded).choice.value.vm;
    PickKeepsIdentity(t.view, m, nm, recorded);
    TargetIsLive(t.view, m, nm, recorded, vm);
    var read :| ReadsLive(t.view, read, vm);
    DeletesIff(t, m, nm, PickVm(t.view, m, nm, recorded).nm, vm, recorded, uuid);
    assert MayDelete(t, m, nm, uuid, vm);
  }

  /** The search changes annotations only. */
  lemma PickKeepsIdentity(v: PrismView, m: Machine, nm: NutanixMachine, recorded: string)
    ensures var p := PickVm(v, m, nm, recorded).nm;
            p == nm.(annotations := p.annotations)
  {
  }

  /** Where a reply carries an ExtId, it is the one asked for. */
  ghost predicate Matching(v: PrismView) {
    forall uuid :: uuid in v.gets && v.gets[uuid].Ok? && v.gets[uuid].value.extId.Some? ==>
      v.gets[uuid].value.extId == Some(uuid)
  }

  /** A delete that names a VM which does not read as not decoupled. */
  ghost predicate DeletesDecoupled(t: Visit, m: Machine, nm: NutanixMachine) {
    exists uuid :: Reconciled(t, m, nm).action == Deletes(uuid) && IsDecoupled(t.view, uuid) != Ok(false)
  }

  /** The recorded VM is decoupled, and the recovered one on record is live and comes back without an ExtId. */
  predicate Nameless(t: Visit, nm: NutanixMachine, recorded: string) {
    var r := Annotation(nm, RECOVERED_VM);
    && IsDecoupled(t.view, recorded) == Ok(true)
    && r != "" && IsDecoupled(t.view, r) == Ok(false)
    && r in t.view.gets && t.view.gets[r].Ok? && t.view.gets[r].value.extId == None
  }

  /** A VM found by a search by name is named by a UUID that reads as live. */
  lemma FoundNamesLive(t: Visit, names: seq<string>, recorded: string, vm: Vm)
    requires Matching(t.view) && Id(vm) != "" && FindNonDecoupled(t.view, names, None) == Ok(Some(vm))
    ensures IsDecoupled(t.view, TargetUuid(vm, recorded)) == Ok(false)
  {
    SearchSound(t.view, names, None);
    var uuid :| FoundIn(t.view, names, None, uuid, vm) && DroppedBut(t.view, names, None, {uuid});
  }

  /** So is a target that the recovered VM on record is not, or that comes back with its ExtId. */
  lemma RecoveredNamesLive(t: Visit, m: Machine, nm: NutanixMachine, waitIfMissing: bool, recorded: string, vm: Vm)
    requires Matching(t.view) && PickRecovered(t.view, m, nm, waitIfMissing).choice == Ok(Target(vm))
    ensures var r := Annotation(nm, RECOVERED_VM);
            if r != "" && IsDecoupled(t.view, r) == Ok(false) then FindByUuid(t.view, r, None) == Ok(Some(vm))
            else IsDecoupled(t.view, TargetUuid(vm, recorded)) == Ok(false)
  {
    if FindNonDecoupled(t.view, CandidateNames(m.name, nm.name), None) == Ok(Some(vm)) && Id(vm) != "" {
      FoundNamesLive(t, CandidateNames(m.name, nm.name), recorded, vm);
    }
  }

  /** A target that names a UUID other than a live one is the nameless one. */
  lemma TargetNamesLive(t: Visit, m: Machine, nm: NutanixMachine, recorded: string, vm: Vm)
    requires t.view.v3Client && OnMetroPath(m, nm) && Matching(t.view)
    requires PickVm(t.view, m, nm, recorded).choice == Ok(Target(vm))
    ensures IsDecoupled(t.view, TargetUuid(vm, recorded)) != Ok(false) <==> Nameless(t, nm, recorded)
  {
    var v, skipped := t.view, Annotated(nm, SKIPPED_DECOUPLED_VM, recorded);
    assert Annotation(skipped, RECOVERED_VM) == Annotation(nm, RECOVERED_VM);
    if IsDecoupled(v, recorded) == Ok(true) {
      RecoveredNamesLive(t, m, skipped, true, recorded, vm);
    } else if FindByUuid(v, recorded, None) != Ok(Some(vm)) {
      RecoveredNamesLive(t, m, nm, false, recorded, vm);
    }
  }

  /**
   Exactly when a decoupled VM is the one that a delete on the metro path names: the recorded VM is
   decoupled, the recovered one on record is live and comes back without an ExtId, and nothing keeps it
   from being deleted.
   */
  lemma DecoupledDeletedIff(t: Visit, m: Machine, nm: NutanixMachine, recorded: string)
    requires t.view.v3Client && OnMetroPath(m, nm) && Matching(t.view)
    requires GetVmUuid(m, nm) == Ok(recorded) && recorded != ""
    ensures DeletesDecoupled(t, m, nm)
       <==> Nameless(t, nm, recorded) && MayDelete(t, m, nm, recorded, t.view.gets[Annotation(nm, RECOVERED_VM)].value)
  {
    var p := PickVm(t.view, m, nm, recorded);
    PickKeepsIdentity(t.view, m, nm, recorded);
    if Nameless(t, nm, recorded) { NamelessIsTarget(t, m, nm, recorded); }
    if p.choice.Ok? && p.choice.value.Target? {
      var vm := p.choice.value.vm;
      TargetNamesLive(t, m, nm, recorded, vm);
      forall uuid ensures Act(t, m, p.nm, vm, recorded) == Deletes(uuid)
                     <==> uuid == TargetUuid(vm, recorded) != "" && MayDelete(t, m, nm, uuid, vm)
      {
        DeletesIff(t, m, nm, p.nm, vm, recorded, uuid);
      }
    }
  }

  /** A target is deleted exactly when it may be. */
  lemma DeletesIff(t: Visit, m: Machine, nm: NutanixMachine, later: NutanixMachine, vm: Vm, recorded: string,
      uuid: string)
    requires later.name == nm.name
    ensures Act(t, m, later, vm, recorded) == Deletes(uuid)
       <==> uuid == TargetUuid(vm, recorded) != "" && MayDelete(t, m, nm, uuid, vm)
  {
    if TasksOf(t.tasks, uuid).Ok? { NoneInProgress(TasksOf(t.tasks, uuid).value); }
    NoneAttached(vm.disks);
  }

  lemma NamelessIsTarget(t: Visit, m: Machine, nm: NutanixMachine, recorded: string)
    requires t.view.v3Client && OnMetroPath(m, nm) && Nameless(t, nm, recorded)
    ensures PickVm(t.view, m, nm, recorded).choice == Ok(Target(t.view.gets[Annotation(nm, RECOVERED_VM)].value))
  {
    assert Annotation(Annotated(nm, SKIPPED_DECOUPLED_VM, recorded), RECOVERED_VM) == Annotation(nm, RECOVERED_VM);
  }

  /** So, as long as the recovered VM on record comes back with its ExtId, no decoupled VM is ever deleted. */
  lemma DecoupledNeverDeleted(t: Visit, m: Machine, nm: NutanixMachine, recorded: string, uuid: string)
    requires t.view.v3Client && OnMetroPath(m, nm) && Matching(t.view)
    requires GetVmUuid(m, nm) == Ok(recorded) && recorded != "" && !Nameless(t, nm, recorded)
    requires IsDecoupled(t.view, uuid) != Ok(false)
    ensures Reconciled(t, m, nm).action != Deletes(uuid)
  {
    DecoupledDeletedIff(t, m, nm, recorded);
  }

  const RECORDED := seq(32, _ => '0')

  /** A recovered VM that Prism returns without an ExtId. */
  const NAMELESS := PrismView(map["r" := Ok(Vm(None, Some("m"), None, []))], map[], map[RECORDED := Ok(true)], true)

  /** Without that, the fallback to the recorded UUID aims the delete at the decoupled VM itself. */
  lemma NilExtIdAimsAtDecoupled()
    ensures var nm := NutanixMachine("m", true, map[RECOVERED_VM := "r"], "", Status(RECORDED, "", false, false));
            && Reconciled(Visit(NAMELESS, map[], true), Machine("m", "", ""), nm).action == Deletes(RECORDED)
            && IsDecoupled(NAMELESS, RECORDED) == Ok(true)
  {
    var nm := NutanixMachine("m", true, map[RECOVERED_VM := "r"], "", Status(RECORDED, "", false, false));
    assert GetVmUuid(Machine("m", "", ""), nm) == Ok(RECORDED);
    var skipped := Annotated(nm, SKIPPED_DECOUPLED_VM, RECORDED);
    assert Annotation(skipped, RECOVERED_VM) == "r";
    assert PickRecovered(NAMELESS, Machine("m", "", ""), skipped, true).choice == Ok(Target(NAMELESS.gets["r"].value));
  }

  // ---------- off the metro path ----------

  /** The recorded UUID is all there is to go by. */
  predicate ByUuidOnly(t: Visit, m: Machine, nm: NutanixMachine) {
    !t.view.v3Client || !OnMetroPath(m, nm)
  }

  /** The UUID of Prism's reply, and the recorded one if the reply has none. */
  predicate NamedBy(vm: Vm, recorded: string, uuid: string) {
    uuid != "" && (vm.extId == Some(uuid) || (vm.extId == None && uuid == recorded))
  }

  /** For any replies: a VM that has been recorded is deleted exactly when it is read and may be. */
  lemma ByUuidDeletesIff(t: Visit, m: Machine, nm: NutanixMachine, recorded: string, uuid: string)
    requires ByUuidOnly(t, m, nm) && GetVmUuid(m, nm) == Ok(recorded) && recorded != ""
    ensures Reconciled(t, m, nm).action == Deletes(uuid)
       <==> recorded in t.view.gets && t.view.gets[recorded].Ok?
            && NamedBy(t.view.gets[recorded].value, recorded, uuid)
            && MayDelete(t, m, nm, uuid, t.view.gets[recorded].value)
  {
    if recorded in t.view.gets && t.view.gets[recorded].Ok? {
      DeletesIff(t, m, nm, nm, t.view.gets[recorded].value, recorded, uuid);
    }
  }

  /** A failed read keeps the finalizer: it goes exactly when Prism says that there is no such VM. */
  lemma ByUuidReleaseIff(t: Visit, m: Machine, nm: NutanixMachine, recorded: string)
    requires ByUuidOnly(t, m, nm) && GetVmUuid(m, nm) == Ok(recorded) && recorded != ""
    ensures Reconciled(t, m, nm).action.ReleasesFinalizer? <==> recorded !in t.view.gets
    ensures recorded in t.view.gets && t.view.gets[recorded].Err? ==> Reconciled(t, m, nm) == Outcome(nm, Fails)
  {
  }

  // ---------- which volume group goes first ----------

  /** The first disk of a volume group that can be named is disk `i`. */
  ghost predicate NamesFirst(disks: seq<Disk>, i: nat, volumeGroup: string) {
    && i < |disks| && disks[i].volumeGroup == Some(Some(volumeGroup))
    && forall j :: 0 <= j < i ==> disks[j].volumeGroup in {None, Some(None)}
  }

  lemma {:induction false} FirstVolumeGroupIs(disks: seq<Disk>, volumeGroup: string)
    ensures FirstVolumeGroup(disks) == Some(volumeGroup) <==> exists i: nat :: NamesFirst(disks, i, volumeGroup)
    ensures FirstVolumeGroup(disks) == None <==> forall d :: d in disks ==> d.volumeGroup in {None, Some(None)}
  {
    if disks != [] {
      var n := |disks| - 1;
      FirstVolumeGroupIs(disks[..n], volumeGroup);
      assert disks == disks[..n] + [disks[n]];
      if FirstVolumeGroup(disks[..n]) == Some(volumeGroup) {
        var i: nat :| NamesFirst(disks[..n], i, volumeGroup);
        assert NamesFirst(disks, i, volumeGroup);
      } else if FirstVolumeGroup(disks[..n]) == None {
        forall j | 0 <= j < n ensures disks[j].volumeGroup in {None, Some(None)} { assert disks[j] in disks[..n]; }
        if FirstVolumeGroup(disks) == Some(volumeGroup) { assert NamesFirst(disks, n, volumeGroup); }
      }
      forall i: nat | NamesFirst(disks, i, volumeGroup) ensures FirstVolumeGroup(disks) == Some(volumeGroup) {
        if i < n { assert NamesFirst(disks[..n], i, volumeGroup); }
        else { forall d | d in disks[..n] ensures d.volumeGroup in {None, Some(None)} { } }
      }
    }
  }

  // ---------- when the finalizer goes ----------

  /** What must be read for a recovered VM to count as deleted. */
  predicate ReadsDeleted(v: PrismView, uuid: string) {
    IsDecoupled(v, uuid) == Ok(false) && FindByUuid(v, uuid, None) == Ok(None)
  }

  /** While the recorded VM is decoupled, the finalizer goes exactly when a recovered VM is on record and gone. */
  lemma DecoupledReleaseIff(t: Visit, m: Machine, nm: NutanixMachine, recorded: string)
    requires t.view.v3Client && OnMetroPath(m, nm)
    requires GetVmUuid(m, nm) == Ok(recorded) && recorded != "" && IsDecoupled(t.view, recorded) == Ok(true)
    ensures Reconciled(t, m, nm).action.ReleasesFinalizer?
       <==> Annotation(nm, RECOVERED_VM) != "" && ReadsDeleted(t.view, Annotation(nm, RECOVERED_VM))
  {
    assert Annotation(Annotated(nm, SKIPPED_DECOUPLED_VM, recorded), RECOVERED_VM) == Annotation(nm, RECOVERED_VM);
  }

  /** Nobody recovered: no usable record, and a search by name that finds no live VM with a UUID. */
  predicate NobodyRecovered(v: PrismView, m: Machine, nm: NutanixMachine) {
    var r := Annotation(nm, RECOVERED_VM);
    var found := FindNonDecoupled(v, CandidateNames(m.name, nm.name), None);
    && (r == "" || IsDecoupled(v, r) == Ok(true))
    && found.Ok? && (found.value.None? || found.value.value.extId in {None, Some("")})
  }

  /** The recovered VM on record reads as deleted. */
  predicate RecoveredGone(v: PrismView, nm: NutanixMachine) {
    Annotation(nm, RECOVERED_VM) != "" && ReadsDeleted(v, Annotation(nm, RECOVERED_VM))
  }

  /** On the metro path with a recorded VM. */
  predicate MetroReleases(v: PrismView, m: Machine, nm: NutanixMachine, recorded: string) {
    || (IsDecoupled(v, recorded) == Ok(true) && RecoveredGone(v, nm))
    || (ReadsDeleted(v, recorded) && (RecoveredGone(v, nm) || NobodyRecovered(v, m, nm)))
  }

  /**
   Exactly when a reconcile removes the finalizer, for any replies and on every path: nothing was ever
   recorded; or Prism says that the recorded VM is gone; or, on the metro path, that it is gone or
   decoupled and nothing recovered in its place is left either. An unreadable record never does.
   */
  lemma ReleaseIff(t: Visit, m: Machine, nm: NutanixMachine)
    ensures Reconciled(t, m, nm).action.ReleasesFinalizer?
       <==> match GetVmUuid(m, nm)
            case Err => false
            case Ok(recorded) =>
              if recorded == "" then true
              else if ByUuidOnly(t, m, nm) then recorded !in t.view.gets
              else MetroReleases(t.view, m, nm, recorded)
  {
    if GetVmUuid(m, nm).Ok? && GetVmUuid(m, nm).value != "" {
      var recorded := GetVmUuid(m, nm).value;
      DecidedReleases(t, m, PickVm(t.view, m, nm, recorded), recorded);
      if ByUuidOnly(t, m, nm) {
        ByUuidReleaseIff(t, m, nm, recorded);
      } else {
        MetroReleaseIs(t, m, nm, recorded);
      }
    }
  }

  lemma DecidedReleases(t: Visit, m: Machine, p: Pick, recorded: string)
    ensures Decided(t, m, p, recorded).action.ReleasesFinalizer? <==> p.choice == Ok(NothingLeft)
  {
  }

  /** And the action is what happens to the finalizer. */
  lemma ReleaseIsFinalizer(t: Visit, m: Machine, nm: NutanixMachine)
    ensures Reconciled(t, m, nm).nm.finalizer
       <==> nm.finalizer && !Reconciled(t, m, nm).action.ReleasesFinalizer?
  {
    var recorded := GetVmUuid(m, nm);
    if recorded.Ok? && recorded.value != "" { PickKeepsIdentity(t.view, m, nm, recorded.value); }
  }

  lemma RecoveredReleaseIs(v: PrismView, m: Machine, nm: NutanixMachine, waitIfMissing: bool)
    ensures PickRecovered(v, m, nm, waitIfMissing).choice == Ok(NothingLeft)
       <==> RecoveredGone(v, nm) || (!waitIfMissing && NobodyRecovered(v, m, nm))
  {
  }

  lemma MetroReleaseIs(t: Visit, m: Machine, nm: NutanixMachine, recorded: string)
    requires !ByUuidOnly(t, m, nm)
    ensures PickVm(t.view, m, nm, recorded).choice == Ok(NothingLeft) <==> MetroReleases(t.view, m, nm, recorded)
  {
    var skipped := Annotated(nm, SKIPPED_DECOUPLED_VM, recorded);
    assert Annotation(skipped, RECOVERED_VM) == Annotation(nm, RECOVERED_VM);
    RecoveredReleaseIs(t.view, m, nm, false);
    RecoveredReleaseIs(t.view, m, skipped, true);
  }

  /** Without one, the reconcile waits, fails or turns to a VM it has just found; it keeps the finalizer. */
  lemma DecoupledKeepsFinalizer(t: Visit, m: Machine, nm: NutanixMachine, recorded: string)
    requires t.view.v3Client && OnMetroPath(m, nm)
    requires GetVmUuid(m, nm) == Ok(recorded) && recorded != "" && IsDecoupled(t.view, recorded) == Ok(true)
    requires Annotation(nm, RECOVERED_VM) == ""
    ensures var o := Reconciled(t, m, nm);
            && o.nm.finalizer == nm.finalizer
            && (FindNonDecoupled(t.view, CandidateNames(m.name, nm.name), None).Err? ==> o.action == Fails)
            && (FindNonDecoupled(t.view, CandidateNames(m.name, nm.name), None) == Ok(None) ==> o.action == Waits)
  {
    assert Annotation(Annotated(nm, SKIPPED_DECOUPLED_VM, recorded), RECOVERED_VM) == "";
  }

  /** A recorded VM that reads as decoupled is put on record as skipped, whatever else the reconcile meets. */
  lemma DecoupledIsSkipped(t: Visit, m: Machine, nm: NutanixMachine, recorded: string)
    requires t.view.v3Client && OnMetroPath(m, nm)
    requires GetVmUuid(m, nm) == Ok(recorded) && recorded != "" && IsDecoupled(t.view, recorded) == Ok(true)
    ensures Annotation(Reconciled(t, m, nm).nm, SKIPPED_DECOUPLED_VM) == recorded
  {
    AnnotationsOf(t, m, nm);
    RecoveredPickKeepsSkipped(t.view, m, Annotated(nm, SKIPPED_DECOUPLED_VM, recorded), true);
  }

  // ---------- histories ----------

  /** One reconcile of a history: what it read, and what it left stored. */
  datatype Pass = Pass(machine: Machine, before: NutanixMachine, visit: Visit, after: NutanixMachine)

  ghost predicate IsPass(p: Pass) {
    p.after == if p.visit.patchLands then Reconciled(p.visit, p.machine, p.before).nm else p.before
  }

  /** Between reconciles anything may change but the two annotations. */
  ghost predicate History(h: seq<Pass>) {
    && (forall i :: 0 <= i < |h| ==> IsPass(h[i]))
    && (forall i :: 0 < i < |h| ==> Follows(h[i - 1], h[i]))
  }

  ghost predicate Follows(p: Pass, q: Pass) {
    && Annotation(q.before, SKIPPED_DECOUPLED_VM) == Annotation(p.after, SKIPPED_DECOUPLED_VM)
    && Annotation(q.before, RECOVERED_VM) == Annotation(p.after, RECOVERED_VM)
  }

  /** A reconcile leaves the annotations that its search leaves. */
  lemma AnnotationsOf(t: Visit, m: Machine, nm: NutanixMachine)
    ensures var r := GetVmUuid(m, nm);
            Reconciled(t, m, nm).nm.annotations
            == if r.Err? || r.value == "" then nm.annotations else PickVm(t.view, m, nm, r.value).nm.annotations
  {
  }

  lemma RecoveredPickKeepsSkipped(v: PrismView, m: Machine, nm: NutanixMachine, waitIfMissing: bool)
    ensures Annotation(PickRecovered(v, m, nm, waitIfMissing).nm, SKIPPED_DECOUPLED_VM)
        == Annotation(nm, SKIPPED_DECOUPLED_VM)
  {
  }

  lemma PickKeepsSkipped(v: PrismView, m: Machine, nm: NutanixMachine, recorded: string)
    requires Annotation(nm, SKIPPED_DECOUPLED_VM) != "" && recorded != ""
    ensures Annotation(PickVm(v, m, nm, recorded).nm, SKIPPED_DECOUPLED_VM) != ""
  {
    RecoveredPickKeepsSkipped(v, m, nm, false);
    RecoveredPickKeepsSkipped(v, m, Annotated(nm, SKIPPED_DECOUPLED_VM, recorded), true);
  }

  lemma PassKeepsSkipped(p: Pass)
    requires IsPass(p) && Annotation(p.before, SKIPPED_DECOUPLED_VM) != ""
    ensures Annotation(p.after, SKIPPED_DECOUPLED_VM) != ""
  {
    AnnotationsOf(p.visit, p.machine, p.before);
    var r := GetVmUuid(p.machine, p.before);
    if r.Ok? && r.value != "" {
      PickKeepsSkipped(p.visit.view, p.machine, p.before, r.value);
    }
  }

  ghost predicate Skips(nm: NutanixMachine) {
    Annotation(nm, SKIPPED_DECOUPLED_VM) != ""
  }

  lemma SkipsNext(p: Pass, q: Pass)
    requires IsPass(p) && Follows(p, q) && Skips(p.before)
    ensures Skips(q.before)
  {
    PassKeepsSkipped(p);
  }

  /** What two passes of a history have in common. */
  ghost predicate KeepSkipping(p: Pass, q: Pass) {
    Skips(p.before) ==> Skips(q.before)
  }

  lemma HistoryKeepsSkipping(h: seq<Pass>, t: nat)
    requires History(h) && 0 < t < |h|
    ensures KeepSkipping(h[t - 1], h[t])
  {
    assert Follows(h[t - 1], h[t]);
    if Skips(h[t - 1].before) { SkipsNext(h[t - 1], h[t]); }
  }

  lemma {:induction false} SkipsOn(h: seq<Pass>, s: nat, t: nat)
    requires s <= t < |h| && Skips(h[s].before)
    requires forall i :: 0 < i < |h| ==> KeepSkipping(h[i - 1], h[i])
    ensures Skips(h[t].before)
  {
    if s < t {
      SkipsOn(h, s, t - 1);
      assert KeepSkipping(h[t - 1], h[t]);
    }
  }

  /** Once a decoupled VM has been recorded as skipped, every later reconcile is on the metro path. */
  lemma {:induction false} SkippedStaysMetro(h: seq<Pass>, s: nat, t: nat)
    requires History(h) && s <= t < |h|
    requires Annotation(h[s].before, SKIPPED_DECOUPLED_VM) != ""
    ensures Annotation(h[t].before, SKIPPED_DECOUPLED_VM) != "" && OnMetroPath(h[t].machine, h[t].before)
  {
    forall i | 0 < i < |h| ensures KeepSkipping(h[i - 1], h[i]) { HistoryKeepsSkipping(h, i); }
    SkipsOn(h, s, t);
  }

  /** A live VM of the machine's name is found. */
  ghost predicate Finds(v: PrismView, m: Machine, name: string, uuid: string) {
    exists live: Vm ::
      FindNonDecoupled(v, CandidateNames(m.name, name), None) == Ok(Some(live)) && live.extId == Some(uuid)
  }

  /** A pass that finds one and puts it on record. */
  ghost predicate Records(p: Pass, uuid: string) {
    p.visit.patchLands && Annotation(p.after, RECOVERED_VM) == uuid
      && Finds(p.visit.view, p.machine, p.before.name, uuid)
  }

  lemma RecoveredPickFinds(v: PrismView, m: Machine, nm: NutanixMachine, waitIfMissing: bool)
    ensures var uuid := Annotation(PickRecovered(v, m, nm, waitIfMissing).nm, RECOVERED_VM);
            uuid == "" || uuid == Annotation(nm, RECOVERED_VM) || Finds(v, m, nm.name, uuid)
  {
  }

  lemma PickFinds(v: PrismView, m: Machine, nm: NutanixMachine, recorded: string)
    ensures var uuid := Annotation(PickVm(v, m, nm, recorded).nm, RECOVERED_VM);
            uuid == "" || uuid == Annotation(nm, RECOVERED_VM) || Finds(v, m, nm.name, uuid)
  {
    RecoveredPickFinds(v, m, nm, false);
    RecoveredPickFinds(v, m, Annotated(nm, SKIPPED_DECOUPLED_VM, recorded), true);
  }

  /** A recovered VM on record either was before or is newly found. */
  lemma RecoveredComesFrom(p: Pass)
    requires IsPass(p) && Annotation(p.after, RECOVERED_VM) != ""
    ensures Annotation(p.after, RECOVERED_VM) == Annotation(p.before, RECOVERED_VM)
         || Records(p, Annotation(p.after, RECOVERED_VM))
  {
    AnnotationsOf(p.visit, p.machine, p.before);
    var r := GetVmUuid(p.machine, p.before);
    if r.Ok? && r.value != "" {
      PickFinds(p.visit.view, p.machine, p.before, r.value);
    }
  }

  lemma {:induction false} RecoveredWasFound(h: seq<Pass>, t: nat) returns (s: nat)
    requires History(h) && t < |h|
    requires Annotation(h[0].before, RECOVERED_VM) == "" && Annotation(h[t].before, RECOVERED_VM) != ""
    ensures s < t && Records(h[s], Annotation(h[t].before, RECOVERED_VM))
  {
    assert t > 0;
    assert Follows(h[t - 1], h[t]);
    RecoveredComesFrom(h[t - 1]);
    if Records(h[t - 1], Annotation(h[t].before, RECOVERED_VM)) {
      s := t - 1;
    } else {
      s := RecoveredWasFound(h, t - 1);
    }
  }

  /**
   The history behind a finalizer that goes while the recorded VM is still decoupled: an earlier
   reconcile found a live VM of the machine's name, recorded it, and it now reads as deleted.
   */
  lemma DecoupledReleaseHistory(h: seq<Pass>, t: nat, recorded: string) returns (s: nat, uuid: string)
    requires History(h) && t < |h| && Annotation(h[0].before, RECOVERED_VM) == ""
    requires h[t].visit.view.v3Client && OnMetroPath(h[t].machine, h[t].before)
    requires GetVmUuid(h[t].machine, h[t].before) == Ok(recorded) && recorded != ""
    requires IsDecoupled(h[t].visit.view, recorded) == Ok(true)
    requires Reconciled(h[t].visit, h[t].machine, h[t].before).action.ReleasesFinalizer?
    ensures s < t && Records(h[s], uuid) && ReadsDeleted(h[t].visit.view, uuid)
  {
    DecoupledReleaseIff(h[t].visit, h[t].machine, h[t].before, recorded);
    uuid := Annotation(h[t].before, RECOVERED_VM);
    s := RecoveredWasFound(h, t);
  }
}
