/**
 Which VM belongs to a NutanixMachine: `GetVMUUID`, `FindVM` and `findNonDecoupledVMByName`.

 A `PrismView` holds the replies that one reconcile gets. Nothing relates one reply to another: the
 name index may lag behind, and a list may name VMs that can no longer be read.
 */
module VmLookup {
  import opened Wrappers
  import opened Ascii

  // ---------- the objects ----------

  /** The owner CAPI Machine; `systemUuid` is "" while it has no NodeInfo. */
  datatype Machine = Machine(name: string, failureDomain: string, systemUuid: string)

  /** The NutanixMachine: metadata, `spec.providerID`, and the status that `clusterctl move` drops. */
  datatype NutanixMachine = NutanixMachine(
    name: string,
    finalizer: bool,
    annotations: map<string, string>,
    providerId: string,
    status: Status)

  datatype Status = Status(vmUuid: string, failureDomain: string, ready: bool, failed: bool)

  /** A Go map read. */
  function Annotation(nm: NutanixMachine, key: string): string {
    if key in nm.annotations then nm.annotations[key] else ""
  }

  function Annotated(nm: NutanixMachine, key: string, value: string): NutanixMachine {
    nm.(annotations := nm.annotations[key := value])
  }

  const METRO_PREFIX := "NutanixMetro/"
  const METRO_SITE_PREFIX := "NutanixMetroSite/"
  const ACTIVE_PLACEMENT_PE := "metro.nutanix.com/active-placement-pe"
  const SKIPPED_DECOUPLED_VM := "capx.nutanix.com/skipped-decoupled-vm-uuid"
  const RECOVERED_VM := "capx.nutanix.com/recovered-vm-uuid"

  predicate IsMetro(failureDomain: string) {
    METRO_PREFIX <= failureDomain || METRO_SITE_PREFIX <= failureDomain
  }

  /** `useMetroDRDeletePath`. */
  predicate OnMetroPath(m: Machine, nm: NutanixMachine) {
    || IsMetro(m.failureDomain)
    || IsMetro(nm.status.failureDomain)
    || Annotation(nm, ACTIVE_PLACEMENT_PE) != ""
    || Annotation(nm, SKIPPED_DECOUPLED_VM) != ""
    || Annotation(nm, RECOVERED_VM) != ""
  }

  // ---------- the recorded UUID ----------

  predicate IsHex(c: char) {
    '0' <= c <= '9' || 'a' <= c <= 'f' || 'A' <= c <= 'F'
  }

  /** Five dash-separated groups of hex digits in the first 36 characters. */
  predicate Dashed(s: string)
    requires |s| >= 36
  {
    forall i :: 0 <= i < 36 ==> if i in {8, 13, 18, 23} then s[i] == '-' else IsHex(s[i])
  }

  predicate EqualFold(a: string, b: string) {
    |a| == |b| && forall i :: 0 <= i < |a| ==> Lower(a[i]) == Lower(b[i])
  }

  /** The four shapes that `uuid.Parse` accepts. */
  predicate IsUuid(s: string) {
    if |s| == 36 then Dashed(s)
    else if |s| == 45 then EqualFold(s[..9], "urn:uuid:") && Dashed(s[9..])
    else if |s| == 38 then Dashed(s[1..])
    else |s| == 32 && forall i :: 0 <= i < 32 ==> IsHex(s[i])
  }

  const PROVIDER_ID_PREFIX := "nutanix://"

  function ProviderId(uuid: string): string {
    PROVIDER_ID_PREFIX + uuid
  }

  /** The UUID in a provider ID; a placeholder that holds none is not an error. */
  function UuidOfProviderId(providerId: string): string {
    if PROVIDER_ID_PREFIX <= providerId && IsUuid(providerId[|PROVIDER_ID_PREFIX|..])
    then providerId[|PROVIDER_ID_PREFIX|..] else ""
  }

  /** `GetVMUUID`: the node's word first, then status, then spec. */
  function GetVmUuid(m: Machine, nm: NutanixMachine): Result<string> {
    if m.systemUuid != "" then (if IsUuid(m.systemUuid) then Ok(m.systemUuid) else Err)
    else if nm.status.vmUuid != "" then (if IsUuid(nm.status.vmUuid) then Ok(nm.status.vmUuid) else Err)
    else Ok(UuidOfProviderId(nm.providerId))
  }

  lemma HexIs(c: char)
    ensures IsHex(c) <==> c in "0123456789abcdefABCDEF"
  {
    var digits := "0123456789abcdefABCDEF";
    assert digits[..10] == "0123456789";
    if '0' <= c <= '9' { assert digits[c as int - '0' as int] == c; }
    if 'a' <= c <= 'f' { assert digits[10 + c as int - 'a' as int] == c; }
    if 'A' <= c <= 'F' { assert digits[16 + c as int - 'A' as int] == c; }
  }

  predicate AllHex(s: string) {
    forall i :: 0 <= i < |s| ==> IsHex(s[i])
  }

  /** Groups of 8, 4, 4, 4 and 12 hex digits. */
  ghost predicate FiveGroups(s: string, a: string, b: string, c: string, d: string, e: string) {
    && |a| == 8 && |b| == |c| == |d| == 4 && |e| == 12
    && AllHex(a) && AllHex(b) && AllHex(c) && AllHex(d) && AllHex(e)
    && s == a + "-" + b + "-" + c + "-" + d + "-" + e
  }

  ghost predicate Canonical(s: string) {
    exists a, b, c, d, e :: FiveGroups(s, a, b, c, d, e)
  }

  lemma DashedIff(s: string)
    requires |s| == 36
    ensures Dashed(s) <==> Canonical(s)
  {
    if Dashed(s) {
      var a, b, c, d, e := s[..8], s[9..13], s[14..18], s[19..23], s[24..36];
      assert s == a + "-" + b + "-" + c + "-" + d + "-" + e;
      assert FiveGroups(s, a, b, c, d, e);
    }
  }

  /** What counts as a UUID: hex digits in five groups, the same as a URN or in braces, or 32 digits in a row. */
  lemma UuidIff(s: string)
    ensures IsUuid(s)
       <==> || Canonical(s)
            || (|s| == 45 && (forall i :: 0 <= i < 9 ==> Lower(s[i]) == "urn:uuid:"[i]) && Canonical(s[9..]))
            || (|s| == 38 && Canonical(s[1..37]))
            || (|s| == 32 && AllHex(s))
  {
    assert Canonical(s) ==> |s| == 36;
    if |s| == 36 { DashedIff(s); }
    assert forall i :: 0 <= i < 9 ==> Lower("urn:uuid:"[i]) == "urn:uuid:"[i];
    if |s| == 45 { DashedIff(s[9..]); }
    if |s| == 38 {
      DashedIff(s[1..37]);
      assert forall i :: 0 <= i < 36 ==> s[1..37][i] == s[1..][i];
    }
  }

  lemma ProviderIdRoundTrip(uuid: string)
    requires IsUuid(uuid)
    ensures UuidOfProviderId(ProviderId(uuid)) == uuid
  {
    assert ProviderId(uuid)[|PROVIDER_ID_PREFIX|..] == uuid;
  }

  /** And it is read from no other text: a placeholder holds none. */
  lemma ProviderIdIff(providerId: string, uuid: string)
    ensures UuidOfProviderId(providerId) == uuid != "" <==> IsUuid(uuid) && providerId == "nutanix://" + uuid
  {
    assert !IsUuid("");
    assert ("nutanix://" + uuid)[|PROVIDER_ID_PREFIX|..] == uuid;
    if PROVIDER_ID_PREFIX <= providerId {
      assert providerId == PROVIDER_ID_PREFIX + providerId[|PROVIDER_ID_PREFIX|..];
    }
  }

  /** The three sources in order; an unreadable node or status value is an error, an unreadable spec is not. */
  lemma RecordedUuid(m: Machine, nm: NutanixMachine)
    ensures GetVmUuid(m, nm).Ok? && GetVmUuid(m, nm).value != "" ==> IsUuid(GetVmUuid(m, nm).value)
    ensures GetVmUuid(m, nm) == Ok("") <==>
              m.systemUuid == "" && nm.status.vmUuid == "" && UuidOfProviderId(nm.providerId) == ""
    ensures IsUuid(m.systemUuid) ==> GetVmUuid(m, nm) == Ok(m.systemUuid)
    ensures m.systemUuid == "" && IsUuid(nm.status.vmUuid) ==> GetVmUuid(m, nm) == Ok(nm.status.vmUuid)
    ensures m.systemUuid == "" && nm.status.vmUuid == "" ==> GetVmUuid(m, nm) == Ok(UuidOfProviderId(nm.providerId))
    ensures GetVmUuid(m, nm) == Err <==>
              if m.systemUuid != "" then !IsUuid(m.systemUuid) else nm.status.vmUuid != "" && !IsUuid(nm.status.vmUuid)
  {
    assert !IsUuid("");
  }

  /** What makes a machine one of a metro: where it was put, or what was written to it because of that. */
  lemma MetroByPlacement(m: Machine, nm: NutanixMachine, rest: string)
    ensures OnMetroPath(m.(failureDomain := "NutanixMetro/" + rest), nm)
    ensures OnMetroPath(m.(failureDomain := "NutanixMetroSite/" + rest), nm)
    ensures OnMetroPath(m, nm.(status := nm.status.(failureDomain := "NutanixMetro/" + rest)))
    ensures OnMetroPath(m, nm.(status := nm.status.(failureDomain := "NutanixMetroSite/" + rest)))
    ensures forall key :: key in {ACTIVE_PLACEMENT_PE, SKIPPED_DECOUPLED_VM, RECOVERED_VM} && rest != "" ==>
              OnMetroPath(m, Annotated(nm, key, rest))
  {
    assert ("NutanixMetro/" + rest)[..|METRO_PREFIX|] == METRO_PREFIX;
    assert ("NutanixMetroSite/" + rest)[..|METRO_SITE_PREFIX|] == METRO_SITE_PREFIX;
  }

  /** And nothing else does. */
  lemma OrdinaryIsNotMetro(m: Machine, nm: NutanixMachine)
    requires !("NutanixMetro/" <= m.failureDomain) && !("NutanixMetro/" <= nm.status.failureDomain)
    requires !("NutanixMetroSite/" <= m.failureDomain) && !("NutanixMetroSite/" <= nm.status.failureDomain)
    requires forall key :: key in {ACTIVE_PLACEMENT_PE, SKIPPED_DECOUPLED_VM, RECOVERED_VM} && key in nm.annotations ==>
               nm.annotations[key] == ""
    ensures !OnMetroPath(m, nm)
  {
  }

  // ---------- Prism ----------

  /** `Some(None)` is a volume-group reference without an ExtId. */
  datatype Disk = Disk(volumeGroup: Option<Option<string>>)

  datatype Vm = Vm(extId: Option<string>, name: Option<string>, project: Option<string>, disks: seq<Disk>)

  /** Identifies a project wherever project scoping is in force (Prism Central 7.6 or later). */
  type Project = Option<string>

  /** VMs by UUID (absent means not found), lists by name, and DR roles (absent means not decoupled). */
  datatype PrismView = PrismView(
    gets: map<string, Result<Vm>>,
    lists: map<(string, Project), Result<seq<Vm>>>,
    decoupled: map<string, Result<bool>>,
    v3Client: bool)

  function List(v: PrismView, name: string, project: Project): Result<seq<Vm>> {
    if (name, project) in v.lists then v.lists[(name, project)] else Ok([])
  }

  /** `isVMDecoupled`. */
  function IsDecoupled(v: PrismView, uuid: string): Result<bool> {
    if !v.v3Client || uuid == "" || uuid !in v.decoupled then Ok(false) else v.decoupled[uuid]
  }

  predicate InProject(vm: Vm, project: Project) {
    project.Some? ==> vm.project == project
  }

  /** `FindVMByUUID`. */
  function FindByUuid(v: PrismView, uuid: string, project: Project): Result<Option<Vm>> {
    if uuid !in v.gets then Ok(None)
    else match v.gets[uuid]
      case Err => Err
      case Ok(vm) => if InProject(vm, project) then Ok(Some(vm)) else Err
  }

  /** `FindVMByName`. */
  function FindByName(v: PrismView, name: string, project: Project): Result<Option<Vm>> {
    match List(v, name, project)
    case Err => Err
    case Ok(vms) =>
      if |vms| > 1 then Err
      else if |vms| == 0 then Ok(None)
      else if vms[0].extId.None? then Err
      else FindByUuid(v, vms[0].extId.value, project)
  }

  // ---------- the recovered VM ----------

  function CandidateNames(machineName: string, nutanixMachineName: string): seq<string> {
    if nutanixMachineName != "" && nutanixMachineName != machineName then [machineName, nutanixMachineName]
      else [machineName]
  }

  /** The Machine's name, then the NutanixMachine's if that is another one. */
  lemma CandidatesAre(machineName: string, nutanixMachineName: string)
    ensures var names := CandidateNames(machineName, nutanixMachineName);
            && |names| == (if nutanixMachineName in {"", machineName} then 1 else 2) && names[0] == machineName
            && forall n :: n in names <==> n == machineName || (n == nutanixMachineName && n != "")
  {
  }

  /** A search in progress: the UUIDs dealt with, and the live VMs read. */
  datatype Search = Search(seen: set<string>, live: seq<Vm>)

  function ScanOne(v: PrismView, vm: Vm, s: Search): Result<Search> {
    if vm.extId.None? || vm.extId.value == "" || vm.extId.value in s.seen then Ok(s)
    else
      var uuid := vm.extId.value;
      var t := s.(seen := s.seen + {uuid});
      match IsDecoupled(v, uuid)
      case Err => Err
      case Ok(true) => Ok(t)
      case Ok(false) =>
        match FindByUuid(v, uuid, None)
        case Err => Err
        case Ok(None) => Ok(t)
        case Ok(Some(full)) => Ok(t.(live := t.live + [full]))
  }

  function ScanList(v: PrismView, vms: seq<Vm>, s: Search): Result<Search> {
    if vms == [] then Ok(s)
    else match ScanList(v, vms[..|vms| - 1], s)
      case Err => Err
      case Ok(t) => ScanOne(v, vms[|vms| - 1], t)
  }

  function ScanNames(v: PrismView, names: seq<string>): Result<Search> {
    if names == [] then Ok(Search({}, []))
    else match ScanNames(v, names[..|names| - 1])
      case Err => Err
      case Ok(s) =>
        var name := names[|names| - 1];
        if name == "" then Ok(s)
        else match List(v, name, None)
          case Err => Err
          case Ok(vms) => ScanList(v, vms, s)
  }

  function UsableIn(vms: seq<Vm>, project: Project): seq<Vm> {
    if vms == [] then []
    else UsableIn(vms[..|vms| - 1], project) + if InProject(vms[|vms| - 1], project) then [vms[|vms| - 1]] else []
  }

  function TheOne(live: seq<Vm>): Result<Option<Vm>> {
    if |live| == 0 then Ok(None) else if |live| > 1 then Err else Ok(Some(live[0]))
  }

  /** `findNonDecoupledVMByName`. */
  function FindNonDecoupled(v: PrismView, names: seq<string>, project: Project): Result<Option<Vm>> {
    match ScanNames(v, names)
    case Err => Err
    case Ok(s) => TheOne(UsableIn(s.live, project))
  }

  /** `FindVM`, which the create path asks. */
  function FindVm(v: PrismView, m: Machine, nm: NutanixMachine, project: Project): Result<Option<Vm>> {
    match GetVmUuid(m, nm)
    case Err => Err
    case Ok(uuid) =>
      if uuid == "" then
        if OnMetroPath(m, nm) then FindNonDecoupled(v, CandidateNames(m.name, nm.name), project)
        else FindByName(v, m.name, project)
      else match FindByUuid(v, uuid, project)
        case Err => Err
        case Ok(Some(vm)) =>
          if vm.name.None? || (vm.name.value != m.name && vm.name.value != nm.name) then Err
          else if !OnMetroPath(m, nm) then Ok(Some(vm))
          else (match IsDecoupled(v, uuid)
                case Err => Err
                case Ok(false) => Ok(Some(vm))
                case Ok(true) => FindReplacement(v, m, nm, project))
        case Ok(None) => if OnMetroPath(m, nm) then FindReplacement(v, m, nm, project) else Err
  }

  /** A recorded UUID that leads nowhere: a live VM by name, or the error that one was expected. */
  function FindReplacement(v: PrismView, m: Machine, nm: NutanixMachine, project: Project): Result<Option<Vm>> {
    match FindNonDecoupled(v, CandidateNames(m.name, nm.name), project)
    case Ok(Some(live)) => Ok(Some(live))
    case _ => Err
  }

  /** The recorded VM, read in its project and with one of the machine's names. */
  predicate ReadAs(v: PrismView, m: Machine, nm: NutanixMachine, project: Project, uuid: string, vm: Vm) {
    && uuid in v.gets && v.gets[uuid] == Ok(vm) && (project.Some? ==> vm.project == project)
    && vm.name in {Some(m.name), Some(nm.name)}
  }

  /** A recorded UUID that leads on to a live VM of the name: that of a VM gone, or of a decoupled one. */
  ghost predicate LeadsOn(v: PrismView, m: Machine, nm: NutanixMachine, project: Project, uuid: string) {
    || uuid !in v.gets
    || (IsDecoupled(v, uuid) == Ok(true) && exists vm :: ReadAs(v, m, nm, project, uuid, vm))
  }

  /** The one VM listed under a name, read by its UUID. */
  ghost predicate ListedAlone(v: PrismView, name: string, project: Project, vm: Vm) {
    && (name, project) in v.lists && v.lists[(name, project)].Ok? && |v.lists[(name, project)].value| == 1
    && (project.Some? ==> vm.project == project)
    && exists uuid :: v.lists[(name, project)].value[0].extId == Some(uuid) && uuid in v.gets && v.gets[uuid] == Ok(vm)
  }

  /**
   What the create path takes for the machine's VM. With a UUID on record: the VM read by it, of one of the
   machine's names, unless it is decoupled or gone on the metro path; then only a live one by name will do.
   Without one: on the metro path a live one by name, elsewhere the one VM listed under the machine's name.
   */
  lemma FoundVmIs(v: PrismView, m: Machine, nm: NutanixMachine, project: Project, vm: Vm)
    ensures var recorded := GetVmUuid(m, nm);
            var byName := FindNonDecoupled(v, CandidateNames(m.name, nm.name), project) == Ok(Some(vm));
            FindVm(v, m, nm, project) == Ok(Some(vm)) <==>
            && recorded.Ok?
            && if recorded.value == "" then if OnMetroPath(m, nm) then byName else ListedAlone(v, m.name, project, vm)
               else
                 || (ReadAs(v, m, nm, project, recorded.value, vm)
                     && (OnMetroPath(m, nm) ==> IsDecoupled(v, recorded.value) == Ok(false)))
                 || (OnMetroPath(m, nm) && byName && LeadsOn(v, m, nm, project, recorded.value))
  {
    var recorded := GetVmUuid(m, nm);
    if recorded.Ok? && recorded.value in v.gets && v.gets[recorded.value].Ok? {
      var read := v.gets[recorded.value].value;
      assert InProject(read, project) && read.name in {Some(m.name), Some(nm.name)} ==>
          ReadAs(v, m, nm, project, recorded.value, read);
    }
  }

  /** "No VM yet" is only ever the answer while no UUID is recorded. */
  lemma AbsentOnlyIfUnrecorded(v: PrismView, m: Machine, nm: NutanixMachine, project: Project)
    requires FindVm(v, m, nm, project) == Ok(None)
    ensures GetVmUuid(m, nm) == Ok("")
  {
  }

  /** Nothing listed, or one VM that cannot be found by its UUID any more. */
  predicate ListedNone(v: PrismView, name: string, project: Project) {
    (name, project) in v.lists ==>
      var listed := v.lists[(name, project)];
      && listed.Ok? && |listed.value| <= 1
      && (|listed.value| == 1 ==> listed.value[0].extId.Some? && listed.value[0].extId.value !in v.gets)
  }

  /**
   Exactly when the create path takes a machine to have no VM yet: no UUID is recorded, and the search for
   its name, by lists alone or on the metro path among live VMs, comes back with none and no error.
   */
  lemma AbsentIff(v: PrismView, m: Machine, nm: NutanixMachine, project: Project)
    ensures FindVm(v, m, nm, project) == Ok(None)
       <==> GetVmUuid(m, nm) == Ok("")
            && if OnMetroPath(m, nm) then FindNonDecoupled(v, CandidateNames(m.name, nm.name), project) == Ok(None)
               else ListedNone(v, m.name, project)
  {
  }

  // ---------- the methods ----------

  lemma {:induction false} ScanListFails(v: PrismView, vms: seq<Vm>, s: Search, i: nat)
    requires i <= |vms| && ScanList(v, vms[..i], s).Err?
    ensures ScanList(v, vms, s).Err?
  {
    if i < |vms| {
      assert vms[..|vms| - 1][..i] == vms[..i];
      ScanListFails(v, vms[..|vms| - 1], s, i);
    } else {
      assert vms[..i] == vms;
    }
  }

  lemma {:induction false} ScanNamesFails(v: PrismView, names: seq<string>, i: nat)
    requires i <= |names| && ScanNames(v, names[..i]).Err?
    ensures ScanNames(v, names).Err?
  {
    if i < |names| {
      assert names[..|names| - 1][..i] == names[..i];
      ScanNamesFails(v, names[..|names| - 1], i);
    } else {
      assert names[..i] == names;
    }
  }

  /** The inner loop, over the VMs of one name. */
  method ScanVms(v: PrismView, vms: seq<Vm>, s: Search) returns (r: Result<Search>)
    ensures r == ScanList(v, vms, s)
  {
    var seen, live := s.seen, s.live;
    for i := 0 to |vms|
      invariant ScanList(v, vms[..i], s) == Ok(Search(seen, live))
    {
      assert vms[..i + 1][..i] == vms[..i];
      var vm := vms[i];
      if vm.extId.None? || vm.extId.value == "" { continue; }
      var uuid := vm.extId.value;
      if uuid in seen { continue; }
      var decoupled := IsDecoupled(v, uuid);
      var full := FindByUuid(v, uuid, None);
      if decoupled.Err? || (!decoupled.value && full.Err?) {
        ScanListFails(v, vms, s, i + 1);
        return Err;
      }
      seen := seen + {uuid};
      if decoupled.value { continue; }
      if full.value.Some? {
        live := live + [full.value.value];
      }
    }
    assert vms[..|vms|] == vms;
    return Ok(Search(seen, live));
  }

  method VmsUsableForProject(vms: seq<Vm>, project: Project) returns (usable: seq<Vm>)
    ensures usable == UsableIn(vms, project)
  {
    if project.None? {
      AllUsable(vms);
      return vms;
    }
    usable := [];
    for i := 0 to |vms|
      invariant usable == UsableIn(vms[..i], project)
    {
      assert vms[..i + 1][..i] == vms[..i];
      if vms[i].project != project { continue; }
      usable := usable + [vms[i]];
    }
    assert vms[..|vms|] == vms;
  }

  lemma {:induction false} AllUsable(vms: seq<Vm>)
    ensures UsableIn(vms, None) == vms
  {
    if vms != [] {
      AllUsable(vms[..|vms| - 1]);
    }
  }

  method FindNonDecoupledVmByName(v: PrismView, names: seq<string>, project: Project) returns (r: Result<Option<Vm>>)
    ensures r == FindNonDecoupled(v, names, project)
  {
    var s := Search({}, []);
    for i := 0 to |names|
      invariant ScanNames(v, names[..i]) == Ok(s)
    {
      assert names[..i + 1][..i] == names[..i];
      if names[i] == "" { continue; }
      var listed := List(v, names[i], None);
      if listed.Err? {
        ScanNamesFails(v, names, i + 1);
        return Err;
      }
      var scanned := ScanVms(v, listed.value, s);
      if scanned.Err? {
        ScanNamesFails(v, names, i + 1);
        return Err;
      }
      s := scanned.value;
    }
    assert names[..|names|] == names;
    var live := VmsUsableForProject(s.live, project);
    if |live| == 0 { return Ok(None); }
    if |live| > 1 { return Err; }
    return Ok(Some(live[0]));
  }

  // ---------- what a search by name answers ----------

  /** `uuid` is listed under one of the names. */
  ghost predicate IsListed(v: PrismView, names: seq<string>, uuid: string) {
    exists i :: 0 <= i < |names| && IsNamed(v, names[i], uuid)
  }

  ghost predicate IsNamed(v: PrismView, name: string, uuid: string) {
    && name != "" && uuid != "" && (name, None) in v.lists && v.lists[(name, None)].Ok?
    && exists j :: 0 <= j < |v.lists[(name, None)].value| && v.lists[(name, None)].value[j].extId == Some(uuid)
  }

  /** Prism reports a DR role for the VM. */
  predicate HasRole(v: PrismView, uuid: string) {
    v.v3Client && uuid != "" && uuid in v.decoupled
  }

  /** A VM that a search reads as live. */
  predicate ReadsLive(v: PrismView, uuid: string, vm: Vm) {
    (HasRole(v, uuid) ==> v.decoupled[uuid] == Ok(false)) && uuid in v.gets && v.gets[uuid] == Ok(vm)
  }

  predicate ReadsGone(v: PrismView, uuid: string) {
    (HasRole(v, uuid) && v.decoupled[uuid] == Ok(true)) || uuid !in v.gets
  }

  /** Where a VM found by a search was found. */
  ghost predicate FoundUnder(v: PrismView, names: seq<string>, uuid: string, vm: Vm) {
    IsListed(v, names, uuid) && ReadsLive(v, uuid, vm)
  }

  /** The VM is there, but in another project. */
  predicate OutsideProject(v: PrismView, uuid: string, project: Project) {
    uuid in v.gets && v.gets[uuid].Ok? && project.Some? && v.gets[uuid].value.project != project
  }

  /** The three reasons for which a search drops a listed VM: decoupled, gone, of another project. */
  predicate Dropped(v: PrismView, uuid: string, project: Project) {
    ReadsGone(v, uuid) || OutsideProject(v, uuid, project)
  }

  /** The UUIDs among those seen that lead to a live VM of the project. */
  function LiveAmong(v: PrismView, seen: set<string>, project: Project): set<string> {
    set uuid | uuid in seen && !Dropped(v, uuid, project)
  }

  /** Every live VM was read under a UUID that has been seen. */
  ghost predicate LiveIsRead(v: PrismView, s: Search) {
    forall vm :: vm in s.live ==> exists uuid :: uuid in s.seen && ReadsLive(v, uuid, vm)
  }

  /** As many live VMs of the project as UUIDs that lead to one. */
  predicate Counted(v: PrismView, s: Search, project: Project) {
    |LiveAmong(v, s.seen, project)| == |UsableIn(s.live, project)|
  }

  /** What a search knows: who it has seen, and which of those are live. */
  ghost predicate Accounts(v: PrismView, s: Search, project: Project) {
    Counted(v, s, project) && LiveIsRead(v, s)
  }

  lemma UsableLast(vms: seq<Vm>, vm: Vm, project: Project)
    ensures UsableIn(vms + [vm], project) == UsableIn(vms, project) + if InProject(vm, project) then [vm] else []
  {
    assert (vms + [vm])[..|vms|] == vms;
  }

  lemma {:induction false} UsableMembers(vms: seq<Vm>, project: Project, vm: Vm)
    ensures vm in UsableIn(vms, project) <==> vm in vms && InProject(vm, project)
  {
    if vms != [] {
      assert vms == vms[..|vms| - 1] + [vms[|vms| - 1]];
      UsableMembers(vms[..|vms| - 1], project, vm);
    }
  }

  lemma LiveAmongWith(v: PrismView, seen: set<string>, uuid: string, project: Project)
    requires uuid !in seen
    ensures |LiveAmong(v, seen + {uuid}, project)|
         == |LiveAmong(v, seen, project)| + if Dropped(v, uuid, project) then 0 else 1
  {
    var more := if Dropped(v, uuid, project) then {} else {uuid};
    assert LiveAmong(v, seen + {uuid}, project) == LiveAmong(v, seen, project) + more;
  }

  /** What dealing with one more VM adds to a search. */
  lemma ScanOneAdds(v: PrismView, vm: Vm, s: Search)
    requires ScanOne(v, vm, s).Ok?
    ensures var t := ScanOne(v, vm, s).value;
            if Id(vm) == "" || Id(vm) in s.seen then t == s
            else if ReadsGone(v, Id(vm)) then t == Search(s.seen + {Id(vm)}, s.live)
            else
              && FindByUuid(v, Id(vm), None).Ok? && FindByUuid(v, Id(vm), None).value.Some?
              && t == Search(s.seen + {Id(vm)}, s.live + [FindByUuid(v, Id(vm), None).value.value])
  {
  }

  lemma {:induction false} ScanOneCounts(v: PrismView, vm: Vm, s: Search, project: Project)
    requires Counted(v, s, project) && ScanOne(v, vm, s).Ok?
    ensures Counted(v, ScanOne(v, vm, s).value, project)
  {
    ScanOneAdds(v, vm, s);
    if Id(vm) != "" && Id(vm) !in s.seen {
      LiveAmongWith(v, s.seen, Id(vm), project);
      if !ReadsGone(v, Id(vm)) { UsableLast(s.live, FindByUuid(v, Id(vm), None).value.value, project); }
    }
  }

  lemma ScanOneReads(v: PrismView, vm: Vm, s: Search)
    requires LiveIsRead(v, s) && ScanOne(v, vm, s).Ok?
    ensures LiveIsRead(v, ScanOne(v, vm, s).value)
  {
    var t := ScanOne(v, vm, s).value;
    forall x | x in t.live ensures exists uuid :: uuid in t.seen && ReadsLive(v, uuid, x) {
      if x in s.live {
        var uuid :| uuid in s.seen && ReadsLive(v, uuid, x);
        assert uuid in t.seen;
      } else {
        assert ReadsLive(v, Id(vm), x);
      }
    }
  }

  lemma {:induction false} ScanOneAccounts(v: PrismView, vm: Vm, s: Search, project: Project)
    requires Accounts(v, s, project) && ScanOne(v, vm, s).Ok?
    ensures Accounts(v, ScanOne(v, vm, s).value, project)
    ensures ScanOne(v, vm, s).value.seen == s.seen + if Id(vm) == "" then {} else {Id(vm)}
  {
    ScanOneCounts(v, vm, s, project);
    ScanOneReads(v, vm, s);
  }

  function Id(vm: Vm): string {
    if vm.extId.Some? then vm.extId.value else ""
  }

  lemma {:induction false} ScanListAccounts(v: PrismView, vms: seq<Vm>, s: Search, project: Project)
    requires Accounts(v, s, project) && ScanList(v, vms, s).Ok?
    ensures Accounts(v, ScanList(v, vms, s).value, project)
    ensures forall uuid :: uuid in ScanList(v, vms, s).value.seen <==>
              uuid in s.seen || (uuid != "" && exists j :: 0 <= j < |vms| && vms[j].extId == Some(uuid))
  {
    if vms != [] {
      var n := |vms| - 1;
      ScanListAccounts(v, vms[..n], s, project);
      ScanOneAccounts(v, vms[n], ScanList(v, vms[..n], s).value, project);
    }
  }

  lemma {:induction false} ScanNamesAccounts(v: PrismView, names: seq<string>, project: Project)
    requires ScanNames(v, names).Ok?
    ensures Accounts(v, ScanNames(v, names).value, project)
    ensures forall uuid :: uuid in ScanNames(v, names).value.seen <==> IsListed(v, names, uuid)
  {
    if names != [] {
      var n := |names| - 1;
      ScanNamesAccounts(v, names[..n], project);
      var s := ScanNames(v, names[..n]).value;
      if names[n] != "" {
        ScanListAccounts(v, List(v, names[n], None).value, s, project);
      }
      forall uuid ensures uuid in ScanNames(v, names).value.seen <==> IsListed(v, names, uuid) {
        ListedLast(v, names, uuid);
      }
    }
  }

  lemma ListedLast(v: PrismView, names: seq<string>, uuid: string)
    requires names != []
    ensures IsListed(v, names, uuid)
        <==> IsListed(v, names[..|names| - 1], uuid) || IsNamed(v, names[|names| - 1], uuid)
  {
    var n := |names| - 1;
    if IsListed(v, names[..n], uuid) {
      var i :| 0 <= i < n && IsNamed(v, names[..n][i], uuid);
      assert IsNamed(v, names[i], uuid);
    }
    if IsListed(v, names, uuid) {
      var i :| 0 <= i < |names| && IsNamed(v, names[i], uuid);
      if i < n { assert IsNamed(v, names[..n][i], uuid); }
    }
  }

  /** Every other listed VM is decoupled, gone or of another project. */
  ghost predicate DroppedBut(v: PrismView, names: seq<string>, project: Project, kept: set<string>) {
    forall uuid :: IsListed(v, names, uuid) && uuid !in kept ==> Dropped(v, uuid, project)
  }

  lemma OnlyOne(s: set<string>, a: string)
    requires |s| == 1 && a in s
    ensures s == {a}
  {
    assert |s - {a}| == 0;
  }

  /** A VM of the project, found under one of the names. */
  ghost predicate FoundIn(v: PrismView, names: seq<string>, project: Project, uuid: string, vm: Vm) {
    FoundUnder(v, names, uuid, vm) && (project.Some? ==> vm.project == project)
  }

  lemma SearchFinds(v: PrismView, names: seq<string>, s: Search, project: Project) returns (uuid: string)
    requires Accounts(v, s, project) && |UsableIn(s.live, project)| == 1
    requires forall uuid :: uuid in s.seen <==> IsListed(v, names, uuid)
    ensures FoundIn(v, names, project, uuid, UsableIn(s.live, project)[0])
    ensures DroppedBut(v, names, project, {uuid})
  {
    var vm := UsableIn(s.live, project)[0];
    UsableMembers(s.live, project, vm);
    uuid :| uuid in s.seen && ReadsLive(v, uuid, vm);
    OnlyOne(LiveAmong(v, s.seen, project), uuid);
    forall other | IsListed(v, names, other) && other !in {uuid} ensures Dropped(v, other, project) {
      assert other !in LiveAmong(v, s.seen, project);
    }
  }

  lemma SearchFindsNothing(v: PrismView, names: seq<string>, s: Search, project: Project)
    requires Accounts(v, s, project) && UsableIn(s.live, project) == []
    requires forall uuid :: uuid in s.seen <==> IsListed(v, names, uuid)
    ensures DroppedBut(v, names, project, {})
  {
    forall other | IsListed(v, names, other) ensures Dropped(v, other, project) {
      assert other !in LiveAmong(v, s.seen, project);
    }
  }

  /**
   What a search answers, within a project or without one: the one listed VM that is live there, or that
   every listed VM is decoupled, gone or of another project.
   */
  lemma SearchSound(v: PrismView, names: seq<string>, project: Project)
    ensures match FindNonDecoupled(v, names, project)
            case Err => true
            case Ok(Some(vm)) =>
              exists uuid :: FoundIn(v, names, project, uuid, vm) && DroppedBut(v, names, project, {uuid})
            case Ok(None) => DroppedBut(v, names, project, {})
  {
    if ScanNames(v, names).Ok? {
      var s := ScanNames(v, names).value;
      ScanNamesAccounts(v, names, project);
      if |UsableIn(s.live, project)| == 1 {
        var uuid := SearchFinds(v, names, s, project);
      } else if |UsableIn(s.live, project)| == 0 {
        SearchFindsNothing(v, names, s, project);
      }
    }
  }

  // ---------- a search that meets no error ----------

  ghost predicate NoErrors(v: PrismView) {
    && (forall name :: List(v, name, None).Ok?)
    && (forall uuid :: IsDecoupled(v, uuid).Ok?)
    && (forall uuid :: FindByUuid(v, uuid, None).Ok?)
  }

  lemma {:induction false} ScanListSucceeds(v: PrismView, vms: seq<Vm>, s: Search)
    requires NoErrors(v)
    ensures ScanList(v, vms, s).Ok?
  {
    if vms != [] {
      ScanListSucceeds(v, vms[..|vms| - 1], s);
    }
  }

  lemma {:induction false} ScanNamesSucceeds(v: PrismView, names: seq<string>)
    requires NoErrors(v)
    ensures ScanNames(v, names).Ok?
  {
    if names != [] {
      ScanNamesSucceeds(v, names[..|names| - 1]);
      ScanListSucceeds(v, List(v, names[|names| - 1], None).value, ScanNames(v, names[..|names| - 1]).value);
    }
  }

  /** With no error and at most one live VM of the names in the project, the search answers that VM or none. */
  lemma SearchComplete(v: PrismView, names: seq<string>, project: Project, live: set<string>)
    requires NoErrors(v) && |live| <= 1
    requires forall uuid :: uuid in live <==> IsListed(v, names, uuid) && !Dropped(v, uuid, project)
    ensures live == {} ==> FindNonDecoupled(v, names, project) == Ok(None)
    ensures forall uuid :: uuid in live ==> FindNonDecoupled(v, names, project) == FindByUuid(v, uuid, None)
  {
    ScanNamesSucceeds(v, names);
    ScanNamesAccounts(v, names, project);
    var s := ScanNames(v, names).value;
    assert LiveAmong(v, s.seen, project) == live;
    if |live| == 1 {
      var uuid := SearchFinds(v, names, s, project);
      OnlyOne(live, uuid);
    }
  }
}
