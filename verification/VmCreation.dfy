/**
 Creating the VM of a NutanixMachine: `getOrMintVMCreationRequestID`, `getOrCreateVM`, `syncVmUUID`
 and the part of `Reconcile` around them.

 A reconcile works on a copy of the NutanixMachine in memory and writes to the API server and to
 Prism on the way. Every write may be refused, may land without its reply arriving, or may be the
 last thing before the controller dies. The replies of Prism's reads are arbitrary, so a lagging
 name index needs no treatment of its own; reads of the NutanixMachine itself are current.
 */
module VmCreation {
  import opened Wrappers
  import opened VmLookup

  const REQUEST_ID := "capx.nutanix.com/vm-creation-request-id"

  function RequestId(nm: NutanixMachine): string {
    Annotation(nm, REQUEST_ID)
  }

  /**
   Prism Central: what it remembers of each request ID (the VM it created, or a failed task), every
   create call it was sent, and every VM it created for them.
   */
  datatype Prism = Prism(requests: map<string, Option<string>>, calls: seq<string>, created: seq<string>)

  /** One reconcile: the object in memory, what the API server stores, Prism, and whether the controller still runs. */
  datatype Scope = Scope(mem: NutanixMachine, stored: NutanixMachine, prism: Prism, alive: bool)

  // ---------- fortune ----------

  datatype Write = Refused | Done | ReplyLost | DiesBefore | DiesAfter

  predicate Lands(w: Write) {
    w.Done? || w.ReplyLost? || w.DiesAfter?
  }

  predicate Dies(w: Write) {
    w.DiesBefore? || w.DiesAfter?
  }

  /** A stretch of preparation: it succeeds, fails for now, or fails for good (`FailureReason` is set). */
  datatype Check = Passes | Retries | Terminal

  /** What a successful create task hands back. */
  datatype Reply = OneVm | NotOneVm | NoExtId

  /** Everything one reconcile meets. */
  datatype Luck = Luck(
    ownerReady: bool,
    preflight: Check,
    view: PrismView,
    project: Project,
    freshId: string,
    mint: Write,
    prepare: Check,
    create: Write,
    createError: Check,
    newVm: string,
    taskFails: bool,
    reply: Reply,
    spec: Write,
    status: Write,
    powersOn: bool,
    sync: Write,
    finishes: bool,
    lastSpec: Write,
    lastStatus: Write)

  /** New identifiers are not empty, and Prism's are UUIDs. */
  ghost predicate Fair(l: Luck) {
    l.freshId != "" && IsUuid(l.newVm)
  }

  // ---------- the steps as functions ----------

  function WithVmUuid(nm: NutanixMachine, uuid: string): NutanixMachine {
    nm.(status := nm.status.(vmUuid := uuid))
  }

  function Failing(s: Scope, c: Check): Scope {
    if c.Terminal? then s.(mem := s.mem.(status := s.mem.status.(failed := true))) else s
  }

  /** The request ID to use, minted and persisted if there is none; absent when it could not be. */
  function Minted(s: Scope, l: Luck): Scope {
    if RequestId(s.mem) != "" then s
    else s.(stored := if Lands(l.mint) then Annotated(s.stored, REQUEST_ID, l.freshId) else s.stored,
            mem := if l.mint.Done? then Annotated(s.mem, REQUEST_ID, l.freshId) else s.mem,
            alive := !Dies(l.mint))
  }

  /** One `CreateAsync`: Prism answers a request ID that it knows with the outcome it remembers. */
  function Called(p: Prism, id: string, l: Luck): Prism {
    if l.create.DiesBefore? then p
    else
      var q := p.(calls := p.calls + [id]);
      if !Lands(l.create) || id in p.requests then q
      else if l.taskFails then q.(requests := q.requests[id := None])
      else q.(requests := q.requests[id := Some(l.newVm)], created := q.created + [l.newVm])
  }

  /** What the controller learns of its call. */
  function CreatedVm(p: Prism, id: string, l: Luck): Option<string> {
    if l.create.Done? && id in p.requests && l.reply.OneVm? then p.requests[id] else None
  }

  /** A create call that brought no VM: terminal or not, as its error says. */
  function CreateFailure(p: Prism, id: string, l: Luck): Check {
    if l.create.Done? && id in p.requests && p.requests[id].Some?
    then if l.reply.NotOneVm? then Terminal else Retries
    else l.createError
  }

  /** The identity of the VM put into spec and status, and the patch that carries the two, spec first. */
  function Recorded(s: Scope, uuid: string, l: Luck): Scope {
    var stored := if Lands(l.spec) then s.stored.(providerId := ProviderId(uuid)) else s.stored;
    var both := if !Dies(l.spec) && Lands(l.status) then WithVmUuid(stored, uuid) else stored;
    s.(mem := WithVmUuid(s.mem, uuid).(providerId := ProviderId(uuid)),
       stored := both,
       alive := !Dies(l.spec) && !Dies(l.status))
  }

  /** `syncVmUUID`: the node's own UUID, once it is known and valid, replaces the VM's. */
  function SyncTarget(m: Machine, uuid: string): string {
    if m.systemUuid != "" && IsUuid(m.systemUuid) then m.systemUuid else uuid
  }

  function Synced(s: Scope, m: Machine, uuid: string, l: Luck): Scope {
    var target := SyncTarget(m, uuid);
    if s.mem.status.vmUuid == target then s
    else s.(mem := WithVmUuid(s.mem, target),
            stored := if Lands(l.sync) then WithVmUuid(s.stored, target) else s.stored,
            alive := !Dies(l.sync))
  }

  predicate SyncSucceeds(s: Scope, m: Machine, uuid: string, l: Luck) {
    s.mem.status.vmUuid == SyncTarget(m, uuid) || l.sync.Done?
  }

  /** The rest of a reconcile once the VM is known. */
  function Finished(s: Scope, m: Machine, uuid: string, l: Luck): Scope {
    if !l.powersOn then s
    else
      var t := Synced(s, m, uuid, l);
      if !SyncSucceeds(s, m, uuid, l) || !l.finishes then t
      else t.(mem := t.mem.(status := t.mem.status.(ready := true)))
  }

  /** The second half of `getOrCreateVM`, for a machine without a VM. */
  function CreatedAndRecorded(s: Scope, m: Machine, l: Luck): Scope {
    var t := Minted(s, l);
    if RequestId(t.mem) == "" then t
    else if !l.prepare.Passes? then Failing(t, l.prepare)
    else
      var id := RequestId(t.mem);
      var u := t.(prism := Called(t.prism, id, l), alive := !Dies(l.create));
      if Dies(l.create) then u
      else match CreatedVm(u.prism, id, l)
        case None => Failing(u, CreateFailure(u.prism, id, l))
        case Some(uuid) =>
          var r := Recorded(u, uuid, l);
          if l.spec.Done? && l.status.Done? then Finished(r, m, uuid, l) else r
  }

  /** The VM found, or else created, and provisioned. */
  function Provisioned(s: Scope, m: Machine, l: Luck): Scope {
    match FindVm(l.view, m, s.mem, l.project)
    case Err => s
    case Ok(None) => CreatedAndRecorded(s, m, l)
    case Ok(Some(vm)) => if vm.extId.Some? then Finished(s, m, vm.extId.value, l) else s
  }

  /** `reconcileNormal`. */
  function Normal(s: Scope, m: Machine, l: Luck): Scope {
    if s.mem.status.failed then s
    else
      var t := s.(mem := s.mem.(finalizer := true));
      if t.mem.status.ready then (if l.ownerReady then Synced(t, m, t.mem.status.vmUuid, l) else t)
      else if !l.preflight.Passes? then Failing(t, l.preflight)
      else Provisioned(t, m, l)
  }

  /** What a merge patch does to a field: nothing, unless the copy in memory has changed it. */
  function Merged<T(==)>(stored: T, base: T, mem: T): T {
    if mem == base then stored else mem
  }

  /** The same for annotations, key by key; the create path never removes one. */
  function MergedAnnotations(stored: map<string, string>, base: map<string, string>, mem: map<string,
      string>): map<string, string> {
    stored + map k | k in mem && !(k in base && base[k] == mem[k]) :: mem[k]
  }

  function SpecPatched(stored: NutanixMachine, base: NutanixMachine, mem: NutanixMachine): NutanixMachine {
    stored.(finalizer := Merged(stored.finalizer, base.finalizer, mem.finalizer),
            annotations := MergedAnnotations(stored.annotations, base.annotations, mem.annotations),
            providerId := Merged(stored.providerId, base.providerId, mem.providerId))
  }

  function StatusPatched(stored: NutanixMachine, base: NutanixMachine, mem: NutanixMachine): NutanixMachine {
    stored.(status := Status(
      Merged(stored.status.vmUuid, base.status.vmUuid, mem.status.vmUuid),
      Merged(stored.status.failureDomain, base.status.failureDomain, mem.status.failureDomain),
      Merged(stored.status.ready, base.status.ready, mem.status.ready),
      Merged(stored.status.failed, base.status.failed, mem.status.failed)))
  }

  /** The deferred patch, against the object as it was read. */
  function Persisted(base: NutanixMachine, s: Scope, l: Luck): NutanixMachine {
    if !s.alive then s.stored
    else
      var spec := if Lands(l.lastSpec) then SpecPatched(s.stored, base, s.mem) else s.stored;
      if !Dies(l.lastSpec) && Lands(l.lastStatus) then StatusPatched(spec, base, s.mem) else spec
  }

  // ---------- the methods ----------

  class ApiServer {
    var stored: NutanixMachine

    constructor (nm: NutanixMachine)
      ensures stored == nm
    {
      stored := nm;
    }
  }

  class PrismCentral {
    var requests: map<string, Option<string>>
    var calls: seq<string>
    var created: seq<string>

    constructor ()
      ensures Value() == Prism(map[], [], [])
    {
      requests, calls, created := map[], [], [];
    }

    function Value(): Prism
      reads this
    {
      Prism(requests, calls, created)
    }

    method CreateAsync(id: string, l: Luck)
      modifies this
      ensures Value() == Called(old(Value()), id, l)
    {
      if l.create.DiesBefore? { return; }
      calls := calls + [id];
      if !Lands(l.create) || id in requests { return; }
      if l.taskFails {
        requests := requests[id := None];
      } else {
        requests := requests[id := Some(l.newVm)];
        created := created + [l.newVm];
      }
    }
  }

  /** `rctx`: the object being reconciled and where its writes go. */
  class MachineContext {
    const machine: Machine
    const api: ApiServer
    const prism: PrismCentral
    var mem: NutanixMachine
    var alive: bool

    /** Reconcile reads the object first. */
    constructor (machine: Machine, api: ApiServer, prism: PrismCentral)
      ensures this.machine == machine && this.api == api && this.prism == prism
      ensures mem == api.stored && alive
    {
      this.machine, this.api, this.prism := machine, api, prism;
      mem, alive := api.stored, true;
    }

    function Value(): Scope
      reads this, api, prism
    {
      Scope(mem, api.stored, prism.Value(), alive)
    }

    method SetFailureStatus(c: Check)
      modifies this`mem
      ensures Value() == Failing(old(Value()), c)
    {
      if c.Terminal? { mem := mem.(status := mem.status.(failed := true)); }
    }

    method GetOrMintVmCreationRequestId(l: Luck) returns (r: Result<string>)
      requires l.freshId != ""
      modifies this`mem, this`alive, api
      ensures Value() == Minted(old(Value()), l)
      ensures r == if RequestId(mem) == "" then Err else Ok(RequestId(mem))
    {
      if RequestId(mem) != "" { return Ok(RequestId(mem)); }
      var patched := Annotated(mem, REQUEST_ID, l.freshId);
      if Lands(l.mint) { api.stored := Annotated(api.stored, REQUEST_ID, RequestId(patched)); }
      alive := !Dies(l.mint);
      if !l.mint.Done? { return Err; }
      mem := Annotated(mem, REQUEST_ID, l.freshId);
      return Ok(l.freshId);
    }

    /** `patchMachine` after the VM's identity was set: the spec goes first. */
    method RecordVm(uuid: string, l: Luck) returns (ok: bool)
      modifies this`mem, this`alive, api
      ensures Value() == Recorded(old(Value()), uuid, l)
      ensures ok <==> l.spec.Done? && l.status.Done?
    {
      mem := mem.(providerId := ProviderId(uuid));
      mem := WithVmUuid(mem, uuid);
      if Lands(l.spec) { api.stored := api.stored.(providerId := mem.providerId); }
      if Dies(l.spec) {
        alive := false;
        return false;
      }
      if Lands(l.status) { api.stored := WithVmUuid(api.stored, mem.status.vmUuid); }
      alive := !Dies(l.status);
      return l.spec.Done? && l.status.Done?;
    }

    method SyncVmUuid(uuid: string, l: Luck) returns (ok: bool)
      modifies this`mem, this`alive, api
      ensures old(alive) ==> Value() == Synced(old(Value()), machine, uuid, l)
      ensures ok <==> SyncSucceeds(old(Value()), machine, uuid, l)
    {
      var target := uuid;
      if machine.systemUuid != "" && IsUuid(machine.systemUuid) { target := machine.systemUuid; }
      if mem.status.vmUuid == target { return true; }
      mem := WithVmUuid(mem, target);
      if Lands(l.sync) { api.stored := WithVmUuid(api.stored, target); }
      alive := !Dies(l.sync);
      return l.sync.Done?;
    }

    method FinishProvisioning(uuid: string, l: Luck)
      requires alive
      modifies this`mem, this`alive, api
      ensures Value() == Finished(old(Value()), machine, uuid, l)
    {
      if !l.powersOn { return; }
      var ok := SyncVmUuid(uuid, l);
      if !ok || !l.finishes { return; }
      mem := mem.(status := mem.status.(ready := true));
    }

    method CreateVm(l: Luck)
      requires alive && l.freshId != ""
      modifies this`mem, this`alive, api, prism
      ensures Value() == CreatedAndRecorded(old(Value()), machine, l)
    {
      var id := GetOrMintVmCreationRequestId(l);
      if id.Err? { return; }
      if !l.prepare.Passes? {
        SetFailureStatus(l.prepare);
        return;
      }
      prism.CreateAsync(id.value, l);
      alive := !Dies(l.create);
      if Dies(l.create) { return; }
      var vm := CreatedVm(prism.Value(), id.value, l);
      if vm.None? {
        SetFailureStatus(CreateFailure(prism.Value(), id.value, l));
        return;
      }
      var ok := RecordVm(vm.value, l);
      if !ok { return; }
      FinishProvisioning(vm.value, l);
    }

    method ReconcileNormal(l: Luck)
      requires alive && l.freshId != ""
      modifies this`mem, this`alive, api, prism
      ensures Value() == Normal(old(Value()), machine, l)
    {
      if mem.status.failed { return; }
      mem := mem.(finalizer := true);
      if mem.status.ready {
        if !l.ownerReady { return; }
        var _ := SyncVmUuid(mem.status.vmUuid, l);
        return;
      }
      if !l.preflight.Passes? {
        SetFailureStatus(l.preflight);
        return;
      }
      var found := FindVm(l.view, machine, mem, l.project);
      if found.Err? { return; }
      if found.value.None? {
        CreateVm(l);
        return;
      }
      if found.value.value.extId.None? { return; }
      FinishProvisioning(found.value.value.extId.value, l);
    }
  }

  /** `Reconcile` of a machine that is not being deleted, with the deferred patch at its end. */
  method Reconcile(m: Machine, api: ApiServer, prism: PrismCentral, l: Luck)
    requires l.freshId != ""
    modifies api, prism
    ensures World(m, api.stored, prism.Value()) == Next(World(m, old(api.stored), old(prism.Value())), Reconciles(l))
  {
    var rctx := new MachineContext(m, api, prism);
    var base := rctx.mem;
    rctx.ReconcileNormal(l);
    if rctx.alive {
      if Lands(l.lastSpec) { api.stored := SpecPatched(api.stored, base, rctx.mem); }
      if Dies(l.lastSpec) { return; }
      if Lands(l.lastStatus) { api.stored := StatusPatched(api.stored, base, rctx.mem); }
    }
  }

  // ---------- runs ----------

  /** What outlives a reconcile. */
  datatype World = World(machine: Machine, stored: NutanixMachine, prism: Prism)

  /**
   What can happen: a reconcile; `clusterctl move`, which drops the status of both objects; the node
   reporting a system UUID; anyone changing the NutanixMachine other than its request ID and provider ID.
   */
  datatype Event = Reconciles(luck: Luck) | Moves | NodeReports(systemUuid: string) | Edits(edited: NutanixMachine)

  function Next(w: World, e: Event): World {
    match e
    case Reconciles(l) =>
      var s := Normal(Scope(w.stored, w.stored, w.prism, true), w.machine, l);
      World(w.machine, Persisted(w.stored, s, l), s.prism)
    case Moves => w.(machine := w.machine.(systemUuid := ""),
      stored := w.stored.(status := Status("", "", false, false)))
    case NodeReports(systemUuid) => w.(machine := w.machine.(systemUuid := systemUuid))
    case Edits(nm) => w.(stored := nm)
  }

  ghost predicate Allowed(w: World, e: Event) {
    match e
    case Reconciles(l) => Fair(l)
    case Edits(nm) => RequestId(nm) == RequestId(w.stored) && nm.providerId == w.stored.providerId
    case _ => true
  }

  function Run(w: World, events: seq<Event>): World {
    if events == [] then w else Next(Run(w, events[..|events| - 1]), events[|events| - 1])
  }

  ghost predicate AllowedRun(w: World, events: seq<Event>) {
    forall i :: 0 <= i < |events| ==> Allowed(Run(w, events[..i]), events[i])
  }

  /** No create call has been made yet. */
  predicate Untouched(w: World) {
    w.prism == Prism(map[], [], [])
  }

  // ---------- what every reconcile keeps ----------

  /** Prism has seen one request ID, the recorded one, and has created at most the one VM it led to. */
  ghost predicate OneRequest(id: string, p: Prism) {
    && (forall i :: 0 <= i < |p.calls| ==> p.calls[i] == id != "")
    && (forall x :: x in p.requests ==> x == id != "")
    && p.created == (if id in p.requests && p.requests[id].Some? then [p.requests[id].value] else [])
  }

  /** The provider ID is the one from the template, or that of the created VM. */
  ghost predicate NamesCreated(providerId: string, initial: string, p: Prism) {
    providerId == initial || (|p.created| == 1 && IsUuid(p.created[0]) && providerId == ProviderId(p.created[0]))
  }

  ghost predicate Inv(initial: string, stored: NutanixMachine, p: Prism) {
    && OneRequest(RequestId(stored), p)
    && (forall i :: 0 <= i < |p.created| ==> IsUuid(p.created[i]))
    && NamesCreated(stored.providerId, initial, p)
  }

  /** Within a reconcile of `base`: the copy in memory has the request ID that was read, or the stored one. */
  ghost predicate ScopeInv(initial: string, base: NutanixMachine, s: Scope) {
    && Inv(initial, s.stored, s.prism)
    && NamesCreated(s.mem.providerId, initial, s.prism)
    && (s.mem.annotations == base.annotations || RequestId(s.mem) == RequestId(s.stored) != "")
    && (RequestId(s.mem) != "" ==> RequestId(s.mem) == RequestId(s.stored))
  }

  lemma MintKeepsInv(initial: string, base: NutanixMachine, s: Scope, l: Luck)
    requires ScopeInv(initial, base, s) && RequestId(s.mem) == RequestId(s.stored) && Fair(l)
    ensures ScopeInv(initial, base, Minted(s, l))
  {
    assert s.prism.calls == [] || s.prism.calls[0] == RequestId(s.stored);
  }

  lemma CallKeepsInv(initial: string, base: NutanixMachine, s: Scope, l: Luck)
    requires ScopeInv(initial, base, s) && RequestId(s.mem) == RequestId(s.stored) != "" && Fair(l)
    ensures ScopeInv(initial, base, s.(prism := Called(s.prism, RequestId(s.mem), l)))
  {
  }

  lemma RecordKeepsInv(initial: string, base: NutanixMachine, s: Scope, uuid: string, l: Luck)
    requires ScopeInv(initial, base, s) && s.prism.created == [uuid]
    ensures ScopeInv(initial, base, Recorded(s, uuid, l))
  {
  }

  lemma SyncKeepsInv(initial: string, base: NutanixMachine, s: Scope, m: Machine, uuid: string, l: Luck)
    requires ScopeInv(initial, base, s)
    ensures ScopeInv(initial, base, Finished(s, m, uuid, l))
    ensures ScopeInv(initial, base, Synced(s, m, uuid, l))
  {
  }

  lemma CreateKeepsInv(initial: string, base: NutanixMachine, s: Scope, m: Machine, l: Luck)
    requires ScopeInv(initial, base, s) && RequestId(s.mem) == RequestId(s.stored) && Fair(l)
    ensures ScopeInv(initial, base, CreatedAndRecorded(s, m, l))
  {
    var t := Minted(s, l);
    MintKeepsInv(initial, base, s, l);
    var id := RequestId(t.mem);
    if id != "" && l.prepare.Passes? {
      CallKeepsInv(initial, base, t, l);
      var u := t.(prism := Called(t.prism, id, l), alive := !Dies(l.create));
      assert ScopeInv(initial, base, u);
      if !Dies(l.create) && CreatedVm(u.prism, id, l).Some? {
        var uuid := CreatedVm(u.prism, id, l).value;
        RecordKeepsInv(initial, base, u, uuid, l);
        SyncKeepsInv(initial, base, Recorded(u, uuid, l), m, uuid, l);
      }
    }
  }

  lemma ProvisionKeepsInv(initial: string, base: NutanixMachine, s: Scope, m: Machine, l: Luck)
    requires ScopeInv(initial, base, s) && RequestId(s.mem) == RequestId(s.stored) && Fair(l)
    ensures ScopeInv(initial, base, Provisioned(s, m, l))
  {
    match FindVm(l.view, m, s.mem, l.project)
    case Err =>
    case Ok(None) => CreateKeepsInv(initial, base, s, m, l);
    case Ok(Some(vm)) => if vm.extId.Some? { SyncKeepsInv(initial, base, s, m, vm.extId.value, l); }
  }

  lemma NormalKeepsInv(initial: string, base: NutanixMachine, s: Scope, m: Machine, l: Luck)
    requires ScopeInv(initial, base, s) && RequestId(s.mem) == RequestId(s.stored) && Fair(l)
    ensures ScopeInv(initial, base, Normal(s, m, l))
  {
    var t := s.(mem := s.mem.(finalizer := true));
    SyncKeepsInv(initial, base, t, m, t.mem.status.vmUuid, l);
    ProvisionKeepsInv(initial, base, t, m, l);
  }

  lemma PersistKeepsInv(initial: string, base: NutanixMachine, s: Scope, l: Luck)
    requires ScopeInv(initial, base, s)
    ensures Inv(initial, Persisted(base, s, l), s.prism)
  {
    assert RequestId(SpecPatched(s.stored, base, s.mem)) == RequestId(s.stored);
  }

  lemma NextKeepsInv(initial: string, w: World, e: Event)
    requires Inv(initial, w.stored, w.prism) && Allowed(w, e)
    ensures Inv(initial, Next(w, e).stored, Next(w, e).prism)
  {
    match e
    case Reconciles(l) =>
      var s := Scope(w.stored, w.stored, w.prism, true);
      NormalKeepsInv(initial, w.stored, s, w.machine, l);
      PersistKeepsInv(initial, w.stored, Normal(s, w.machine, l), l);
    case _ =>
  }

  lemma {:induction false} RunKeepsInv(w: World, events: seq<Event>)
    requires Untouched(w) && AllowedRun(w, events)
    ensures var v := Run(w, events); Inv(w.stored.providerId, v.stored, v.prism)
  {
    if events != [] {
      var n := |events| - 1;
      assert forall i :: 0 <= i < n ==> events[..n][..i] == events[..i];
      RunKeepsInv(w, events[..n]);
      NextKeepsInv(w.stored.providerId, Run(w, events[..n]), events[n]);
    }
  }

  // ---------- the promises ----------

  /**
   Over every run, with crashes anywhere, lost replies, a lagging index and moves: all create calls
   carry one request ID, which is the persisted one, and Prism creates at most one VM.
   */
  lemma {:induction false} AtMostOneVm(w: World, events: seq<Event>)
    requires Untouched(w) && AllowedRun(w, events)
    ensures var v := Run(w, events);
            (forall i :: 0 <= i < |v.prism.calls| ==> v.prism.calls[i] == RequestId(v.stored)) && |v.prism.created| <= 1
  {
    RunKeepsInv(w, events);
  }

  /** Whatever provider ID the controller ever writes is that of the one VM created. */
  lemma {:induction false} ProviderIdNamesCreated(w: World, events: seq<Event>)
    requires Untouched(w) && AllowedRun(w, events)
    requires Run(w, events).stored.providerId != w.stored.providerId
    ensures var v := Run(w, events); |v.prism.created| == 1 && v.stored.providerId == ProviderId(v.prism.created[0])
  {
    RunKeepsInv(w, events);
  }

  lemma NoCallOnceRecorded(s: Scope, m: Machine, l: Luck)
    requires UuidOfProviderId(s.mem.providerId) != ""
    ensures Normal(s, m, l).prism == s.prism
    ensures Normal(s, m, l).mem.providerId == s.mem.providerId
    ensures Normal(s, m, l).stored.providerId == s.stored.providerId
  {
    var t := s.(mem := s.mem.(finalizer := true));
    if FindVm(l.view, m, t.mem, l.project) == Ok(None) {
      AbsentOnlyIfUnrecorded(l.view, m, t.mem, l.project);
    }
  }

  /** Once a UUID is persisted in the provider ID, no event changes it or leads to another create call. */
  lemma {:induction false} RecordedIsFinal(w: World, events: seq<Event>)
    requires AllowedRun(w, events) && UuidOfProviderId(w.stored.providerId) != ""
    ensures Run(w, events).prism == w.prism
    ensures Run(w, events).stored.providerId == w.stored.providerId
  {
    if events != [] {
      var n := |events| - 1;
      assert forall i :: 0 <= i < n ==> events[..n][..i] == events[..i];
      RecordedIsFinal(w, events[..n]);
      var v := Run(w, events[..n]);
      assert Allowed(v, events[n]);
      if events[n].Reconciles? {
        NoCallOnceRecorded(Scope(v.stored, v.stored, v.prism, true), v.machine, events[n].luck);
      }
    }
  }

  /** After a move the provider ID alone still tells which VM is the machine's. */
  lemma MoveKeepsIdentity(w: World, uuid: string)
    requires IsUuid(uuid) && w.stored.providerId == ProviderId(uuid)
    ensures var v := Next(w, Moves); GetVmUuid(v.machine, v.stored) == Ok(uuid)
  {
    ProviderIdRoundTrip(uuid);
  }

  // ---------- what is not promised ----------

  lemma CreateLeavesFinalizer(s: Scope, m: Machine, l: Luck)
    ensures CreatedAndRecorded(s, m, l).stored.finalizer == s.stored.finalizer
  {
    var t := Minted(s, l);
    var id := RequestId(t.mem);
    var u := t.(prism := Called(t.prism, id, l), alive := !Dies(l.create));
    if CreatedVm(u.prism, id, l).Some? {
      var uuid := CreatedVm(u.prism, id, l).value;
      FinishLeavesFinalizer(Recorded(u, uuid, l), m, uuid, l);
    }
  }

  lemma FinishLeavesFinalizer(s: Scope, m: Machine, uuid: string, l: Luck)
    ensures Finished(s, m, uuid, l).stored.finalizer == s.stored.finalizer
  {
  }

  /** No write before the deferred patch carries the finalizer: a reconcile that dies may leave a VM without it. */
  lemma FinalizerWaitsForDeferredPatch(s: Scope, m: Machine, l: Luck)
    ensures Normal(s, m, l).stored.finalizer == s.stored.finalizer
  {
    var t := s.(mem := s.mem.(finalizer := true));
    CreateLeavesFinalizer(t, m, l);
    match FindVm(l.view, m, t.mem, l.project)
    case Ok(Some(vm)) => if vm.extId.Some? { FinishLeavesFinalizer(t, m, vm.extId.value, l); }
    case _ =>
  }

  /** A VM adopted by its name never gets into the provider ID. */
  lemma AdoptionLeavesProviderId(s: Scope, m: Machine, l: Luck)
    requires FindVm(l.view, m, s.mem.(finalizer := true), l.project) != Ok(None)
    ensures Normal(s, m, l).mem.providerId == s.mem.providerId
    ensures Normal(s, m, l).stored.providerId == s.stored.providerId
  {
  }
}
