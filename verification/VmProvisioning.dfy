/**
 What one reconcile makes of a NutanixMachine, and when the created VM gets on record.

 `VmCreation` follows the code; here its outcome is said in terms of what the reconcile met: which of
 its steps succeeded, which VM it learned of and which writes landed.
 */
module VmProvisioning {
  import opened Wrappers
  import opened VmLookup
  import opened VmCreation

  // ---------- which VM a reconcile learns of ----------

  /** The object as the search for its VM sees it: not failed, not ready, past the first checks. */
  predicate Provisions(s: Scope, l: Luck) {
    !s.mem.status.failed && !s.mem.status.ready && l.preflight == Passes
  }

  function Searched(s: Scope, m: Machine, l: Luck): Result<Option<Vm>> {
    FindVm(l.view, m, s.mem.(finalizer := true), l.project)
  }

  /** The reconcile gets as far as asking Prism for a VM, under the request ID `id`. */
  predicate Asks(s: Scope, m: Machine, l: Luck, id: string) {
    && Provisions(s, l) && Searched(s, m, l) == Ok(None) && l.prepare == Passes
    && id != "" && (RequestId(s.mem) == id || (RequestId(s.mem) == "" && l.mint == Done && l.freshId == id))
  }

  /** And is told of exactly one VM, `uuid`: the one that Prism has for that ID by now. */
  ghost predicate Learns(s: Scope, m: Machine, l: Luck, uuid: string) {
    exists id :: Asks(s, m, l, id) && l.create == Done && l.reply == OneVm
      && (if id in s.prism.requests then s.prism.requests[id] == Some(uuid) else !l.taskFails && l.newVm == uuid)
  }

  // ---------- the provider ID ----------

  /** The write that puts the VM on record lands: the patch after the create call, or else the deferred one. */
  predicate RecordLands(l: Luck) {
    Lands(l.spec) || (l.spec == Refused && !Dies(l.status) && Lands(l.lastSpec))
  }

  lemma FinishKeepsProviderId(s: Scope, m: Machine, uuid: string, l: Luck)
    ensures var t := Finished(s, m, uuid, l);
            t.mem.providerId == s.mem.providerId && t.stored.providerId == s.stored.providerId
  {
  }

  /** The reconcile up to the deferred patch, once it has learned of its VM. */
  lemma LearnsSteps(s: Scope, m: Machine, l: Luck, uuid: string)
    requires Learns(s, m, l, uuid)
    ensures var t := Normal(s, m, l);
            && t.mem.providerId == ProviderId(uuid)
            && t.stored.providerId == (if Lands(l.spec) then ProviderId(uuid) else s.stored.providerId)
            && (l.spec == Refused && !Dies(l.status) ==> t.alive)
            && (Dies(l.spec) || (l.spec != Done && Dies(l.status)) ==> !t.alive)
  {
    var id :| Asks(s, m, l, id) && l.create == Done && l.reply == OneVm
      && (if id in s.prism.requests then s.prism.requests[id] == Some(uuid) else !l.taskFails && l.newVm == uuid);
    var t := Minted(s.(mem := s.mem.(finalizer := true)), l);
    assert RequestId(t.mem) == id;
    var u := t.(prism := Called(t.prism, id, l), alive := true);
    assert CreatedVm(u.prism, id, l) == Some(uuid);
    FinishKeepsProviderId(Recorded(u, uuid, l), m, uuid, l);
  }

  /** Its identity in status is stored as well, the VM's UUID or the node's. */
  lemma LearnsStatus(s: Scope, m: Machine, l: Luck, uuid: string)
    requires Learns(s, m, l, uuid) && !Dies(l.spec) && Lands(l.status)
    ensures var stored := Normal(s, m, l).stored.status.vmUuid;
            stored == uuid || (stored == m.systemUuid && IsUuid(m.systemUuid))
  {
    var id :| Asks(s, m, l, id) && l.create == Done && l.reply == OneVm
      && (if id in s.prism.requests then s.prism.requests[id] == Some(uuid) else !l.taskFails && l.newVm == uuid);
    var t := Minted(s.(mem := s.mem.(finalizer := true)), l);
    assert RequestId(t.mem) == id;
    var u := t.(prism := Called(t.prism, id, l), alive := true);
    assert CreatedVm(u.prism, id, l) == Some(uuid);
    FinishStatus(Recorded(u, uuid, l), m, uuid, l);
  }

  lemma FinishStatus(s: Scope, m: Machine, uuid: string, l: Luck)
    requires s.stored.status.vmUuid == uuid
    ensures var stored := Finished(s, m, uuid, l).stored.status.vmUuid;
            stored == uuid || (stored == m.systemUuid && IsUuid(m.systemUuid))
  {
  }

  /** Without learning of a VM a reconcile leaves the provider ID alone. */
  lemma OthersKeepProviderId(s: Scope, m: Machine, l: Luck)
    requires forall uuid :: !Learns(s, m, l, uuid)
    ensures Normal(s, m, l).mem.providerId == s.mem.providerId
    ensures Normal(s, m, l).stored.providerId == s.stored.providerId
  {
    var t := s.(mem := s.mem.(finalizer := true));
    if Provisions(s, l) && Searched(s, m, l) == Ok(None) {
      var u := Minted(t, l);
      var id := RequestId(u.mem);
      if id != "" && l.prepare == Passes && CreatedVm(Called(u.prism, id, l), id, l).Some? {
        assert Asks(s, m, l, id);
        assert Learns(s, m, l, CreatedVm(Called(u.prism, id, l), id, l).value);
      }
    }
  }

  function Read(w: World): Scope {
    Scope(w.stored, w.stored, w.prism, true)
  }

  /** An event that puts the created VM on record. */
  ghost predicate Records(w: World, e: Event, uuid: string) {
    e.Reconciles? && Learns(Read(w), w.machine, e.luck, uuid) && RecordLands(e.luck)
  }

  /** A reconcile that learns of its VM stores its provider ID, whatever happens after that, if the write lands. */
  lemma RecordsStores(w: World, e: Event, uuid: string)
    requires Records(w, e, uuid)
    ensures Next(w, e).stored.providerId == ProviderId(uuid)
  {
    LearnsSteps(Read(w), w.machine, e.luck, uuid);
  }

  /** And nothing else stores one. */
  lemma OthersStoreNothing(w: World, e: Event)
    requires Allowed(w, e) && forall uuid :: !Records(w, e, uuid)
    ensures Next(w, e).stored.providerId == w.stored.providerId
  {
    if e.Reconciles? {
      var s, l := Read(w), e.luck;
      if uuid :| Learns(s, w.machine, l, uuid) {
        assert !Records(w, e, uuid);
        LearnsSteps(s, w.machine, l, uuid);
      } else {
        OthersKeepProviderId(s, w.machine, l);
      }
    }
  }

  // ---------- over runs ----------

  /** Which events of a run put the VM on record. */
  ghost function Recording(w: World, events: seq<Event>): nat -> bool {
    (i: nat) => i < |events| && exists uuid :: Records(Run(w, events[..i]), events[i], uuid)
  }

  ghost predicate AnyBelow(p: nat -> bool, n: nat) {
    n > 0 && (AnyBelow(p, n - 1) || p(n - 1))
  }

  lemma {:induction false} AnyBelowIff(p: nat -> bool, n: nat)
    ensures AnyBelow(p, n) <==> exists i: nat :: i < n && p(i)
  {
    if n > 0 {
      AnyBelowIff(p, n - 1);
    }
  }

  /** The one VM created is on record. */
  ghost predicate OnRecord(v: World) {
    |v.prism.created| == 1 && v.stored.providerId == ProviderId(v.prism.created[0]) && IsUuid(v.prism.created[0])
  }

  /** What is true after `n` events. */
  ghost predicate OnRecordExactly(w: World, events: seq<Event>, n: nat)
    requires n <= |events|
  {
    var v := Run(w, events[..n]);
    && (OnRecord(v) <==> AnyBelow(Recording(w, events), n))
    && (!OnRecord(v) ==> v.stored.providerId == w.stored.providerId)
  }

  lemma {:induction false} RunNext(w: World, events: seq<Event>, n: nat)
    requires n < |events|
    ensures Run(w, events[..n + 1]) == Next(Run(w, events[..n]), events[n])
  {
    assert events[..n + 1][..n] == events[..n];
  }

  lemma OnRecordReads(v: World)
    requires OnRecord(v)
    ensures UuidOfProviderId(v.stored.providerId) == v.prism.created[0] != ""
  {
    ProviderIdRoundTrip(v.prism.created[0]);
  }

  /** Once on record, always on record. */
  lemma OnRecordStays(v: World, e: Event)
    requires OnRecord(v) && Allowed(v, e)
    ensures OnRecord(Next(v, e))
  {
    OnRecordReads(v);
    if e.Reconciles? { NoCallOnceRecorded(Read(v), v.machine, e.luck); }
  }

  /** What the invariant says of a provider ID other than the first one. */
  lemma ChangedIsOnRecord(initial: string, v: World)
    requires Inv(initial, v.stored, v.prism) && v.stored.providerId != initial
    ensures OnRecord(v)
  {
  }

  lemma RecordsPuts(initial: string, v: World, e: Event, uuid: string)
    requires Inv(initial, v.stored, v.prism) && Allowed(v, e) && Records(v, e, uuid)
    requires UuidOfProviderId(initial) == ""
    ensures OnRecord(Next(v, e))
  {
    NextKeepsInv(initial, v, e);
    RecordsStores(v, e, uuid);
    LearnedIsCreated(initial, v, e.luck, uuid);
    ProviderIdRoundTrip(uuid);
    ChangedIsOnRecord(initial, Next(v, e));
  }

  /** What Prism has for the request is a VM it created, or creates now. */
  lemma LearnedIsCreated(initial: string, v: World, l: Luck, uuid: string)
    requires Inv(initial, v.stored, v.prism) && Fair(l) && Learns(Read(v), v.machine, l, uuid)
    ensures IsUuid(uuid)
  {
    var id :| Asks(Read(v), v.machine, l, id)
      && (if id in v.prism.requests then v.prism.requests[id] == Some(uuid) else !l.taskFails && l.newVm == uuid);
    if id in v.prism.requests {
      assert v.prism.created == [uuid];
      assert v.prism.created[0] == uuid;
    }
  }

  lemma {:induction false} PrefixInv(w: World, events: seq<Event>, n: nat)
    requires Untouched(w) && AllowedRun(w, events) && n <= |events|
    ensures Inv(w.stored.providerId, Run(w, events[..n]).stored, Run(w, events[..n]).prism)
  {
    assert forall i :: 0 <= i < n ==> events[..n][..i] == events[..i];
    RunKeepsInv(w, events[..n]);
  }

  lemma StillUnread(w: World, v: World)
    requires UuidOfProviderId(w.stored.providerId) == "" && v.stored.providerId == w.stored.providerId
    ensures !OnRecord(v)
  {
    if OnRecord(v) { OnRecordReads(v); }
  }

  /** What one event makes of being on record. */
  lemma OnRecordStep(initial: string, v: World, e: Event)
    requires Inv(initial, v.stored, v.prism) && Allowed(v, e) && UuidOfProviderId(initial) == ""
    requires OnRecord(v) || v.stored.providerId == initial
    ensures OnRecord(Next(v, e)) <==> OnRecord(v) || exists uuid :: Records(v, e, uuid)
    ensures OnRecord(Next(v, e)) || Next(v, e).stored.providerId == initial
  {
    if uuid :| Records(v, e, uuid) {
      RecordsPuts(initial, v, e, uuid);
    } else {
      OthersStoreNothing(v, e);
      if OnRecord(v) {
        OnRecordStays(v, e);
      } else {
        StillUnread(v.(stored := v.stored.(providerId := initial)), Next(v, e));
      }
    }
  }

  lemma {:induction false} OnRecordNext(w: World, events: seq<Event>, n: nat)
    requires Untouched(w) && AllowedRun(w, events) && UuidOfProviderId(w.stored.providerId) == ""
    requires n < |events| && OnRecordExactly(w, events, n)
    ensures OnRecordExactly(w, events, n + 1)
  {
    PrefixInv(w, events, n);
    assert Allowed(Run(w, events[..n]), events[n]);
    OnRecordStep(w.stored.providerId, Run(w, events[..n]), events[n]);
    RunNext(w, events, n);
  }

  /**
   Over every run of a machine that starts without a VM: the one VM created is on record, so that no later
   event leads to another create call, if and only if some reconcile has learned of it and a write that
   carries it has landed.
   */
  lemma {:induction false} OnRecordIff(w: World, events: seq<Event>)
    requires Untouched(w) && AllowedRun(w, events) && UuidOfProviderId(w.stored.providerId) == ""
    ensures OnRecord(Run(w, events)) <==> exists i: nat :: i < |events| && Recording(w, events)(i)
  {
    assert Run(w, events[..0]) == w && !OnRecord(w);
    for n := 0 to |events|
      invariant OnRecordExactly(w, events, n)
    {
      OnRecordNext(w, events, n);
    }
    assert events[..|events|] == events;
    AnyBelowIff(Recording(w, events), |events|);
  }

  // ---------- identity and readiness ----------

  /** The UUID that status ends up with: the node's, once the node reports a valid one. */
  predicate IsIdentity(m: Machine, vm: string, uuid: string) {
    if IsUuid(m.systemUuid) then uuid == m.systemUuid else uuid == vm
  }

  /** The VM that a reconcile knows: found with an ExtId, or learned of and put on record. */
  ghost predicate Knows(s: Scope, m: Machine, l: Luck, vm: string) {
    || (Provisions(s, l) && Searched(s, m, l).Ok? && Searched(s, m, l).value.Some?
        && Searched(s, m, l).value.value.extId == Some(vm))
    || (Learns(s, m, l, vm) && l.spec == Done && l.status == Done)
  }

  lemma FinishIs(s: Scope, m: Machine, vm: string, l: Luck)
    requires !s.mem.status.ready
    ensures var t := Finished(s, m, vm, l);
            && (t.mem.status.ready ==> l.powersOn && l.finishes && IsIdentity(m, vm, t.mem.status.vmUuid))
            && (t.mem.status.ready <==>
                  l.powersOn && l.finishes && (l.sync == Done || IsIdentity(m, vm, s.mem.status.vmUuid)))
            && (IsIdentity(m, vm, s.mem.status.vmUuid) ==> t == Finished(s, m, vm, l.(sync := Done)))
            && (t.mem.status.vmUuid != s.mem.status.vmUuid ==> l.powersOn)
  {
    assert |m.systemUuid| == 0 ==> !IsUuid(m.systemUuid);
  }

  lemma ReadyFromFound(s: Scope, m: Machine, l: Luck, vm: Vm)
    requires !s.mem.status.ready && Normal(s, m, l).mem.status.ready && Searched(s, m, l) == Ok(Some(vm))
    ensures vm.extId.Some? && Knows(s, m, l, vm.extId.value) && l.powersOn && l.finishes
    ensures IsIdentity(m, vm.extId.value, Normal(s, m, l).mem.status.vmUuid)
  {
    FinishIs(s.(mem := s.mem.(finalizer := true)), m, vm.extId.value, l);
  }

  lemma ReadyFromCreated(s: Scope, m: Machine, l: Luck) returns (vm: string)
    requires !s.mem.status.ready && Normal(s, m, l).mem.status.ready && Searched(s, m, l) == Ok(None)
    ensures Knows(s, m, l, vm) && l.powersOn && l.finishes && IsIdentity(m, vm, Normal(s, m, l).mem.status.vmUuid)
  {
    var u := Minted(s.(mem := s.mem.(finalizer := true)), l);
    var id := RequestId(u.mem);
    var c := u.(prism := Called(u.prism, id, l), alive := !Dies(l.create));
    vm := CreatedVm(c.prism, id, l).value;
    assert Asks(s, m, l, id);
    FinishIs(Recorded(c, vm, l), m, vm, l);
  }

  /** A machine becomes ready only with a VM that this reconcile knows, powered on, and its identity in status. */
  lemma ReadyHasIdentity(s: Scope, m: Machine, l: Luck)
    requires !s.mem.status.ready && Normal(s, m, l).mem.status.ready
    ensures l.powersOn && l.finishes
    ensures exists vm :: Knows(s, m, l, vm) && IsIdentity(m, vm, Normal(s, m, l).mem.status.vmUuid)
  {
    match Searched(s, m, l)
    case Err =>
    case Ok(None) => var vm := ReadyFromCreated(s, m, l);
    case Ok(Some(vm)) => ReadyFromFound(s, m, l, vm);
  }

  /** Status in memory holds the identity already, that of a VM just put on record or an earlier one. */
  predicate InStatus(s: Scope, m: Machine, l: Luck, vm: string) {
    IsIdentity(m, vm, if Searched(s, m, l) == Ok(None) then vm else s.mem.status.vmUuid)
  }

  /**
   With such a VM it becomes ready exactly when the further steps succeed, of which the status write is one
   only if there is something to write; and otherwise that write makes no difference.
   */
  lemma KnownBecomesReady(s: Scope, m: Machine, l: Luck, vm: string)
    requires Knows(s, m, l, vm)
    ensures Normal(s, m, l).mem.status.ready <==> l.powersOn && l.finishes && (l.sync == Done || InStatus(s, m, l, vm))
    ensures InStatus(s, m, l, vm) ==> Normal(s, m, l) == Normal(s, m, l.(sync := Done))
  {
    var a := AtFinish(s, m, l, vm);
    KnownFinishes(s, m, l, vm);
    SyncComesLater(s, m, l, vm);
    FinishStartsAlike(s, m, l, vm);
    KnownFinishes(s, m, l.(sync := Done), vm);
    FinishIs(a, m, vm, l);
  }

  lemma SyncComesLater(s: Scope, m: Machine, l: Luck, vm: string)
    requires Knows(s, m, l, vm)
    ensures Knows(s, m, l.(sync := Done), vm)
  {
    if Learns(s, m, l, vm) {
      var id :| Asks(s, m, l, id) && l.create == Done && l.reply == OneVm
        && (if id in s.prism.requests then s.prism.requests[id] == Some(vm) else !l.taskFails && l.newVm == vm);
      assert Asks(s, m, l.(sync := Done), id);
    }
  }

  lemma FinishStartsAlike(s: Scope, m: Machine, l: Luck, vm: string)
    ensures AtFinish(s, m, l.(sync := Done), vm) == AtFinish(s, m, l, vm)
  {
  }

  /** Where the last part of a reconcile starts. */
  function AtFinish(s: Scope, m: Machine, l: Luck, vm: string): Scope {
    var t := s.(mem := s.mem.(finalizer := true));
    if Searched(s, m, l) != Ok(None) then t
    else
      var u := Minted(t, l);
      Recorded(u.(prism := Called(u.prism, RequestId(u.mem), l), alive := !Dies(l.create)), vm, l)
  }

  lemma KnownFinishes(s: Scope, m: Machine, l: Luck, vm: string)
    requires Knows(s, m, l, vm)
    ensures Normal(s, m, l) == Finished(AtFinish(s, m, l, vm), m, vm, l) && !AtFinish(s, m, l, vm).mem.status.ready
    ensures AtFinish(s, m, l, vm).mem.status.vmUuid
         == if Searched(s, m, l) == Ok(None) then vm else s.mem.status.vmUuid
  {
    if Searched(s, m, l) == Ok(None) {
      var id :| Asks(s, m, l, id) && l.create == Done && l.reply == OneVm
        && (if id in s.prism.requests then s.prism.requests[id] == Some(vm) else !l.taskFails && l.newVm == vm);
      var u := Minted(s.(mem := s.mem.(finalizer := true)), l);
      assert RequestId(u.mem) == id;
      assert CreatedVm(Called(u.prism, id, l), id, l) == Some(vm);
    }
  }

  /** A ready machine whose node has come up takes over the node's UUID, in memory and, if the write lands, stored. */
  lemma ReadyFollowsNode(s: Scope, m: Machine, l: Luck)
    requires s.mem.status.ready && !s.mem.status.failed && l.ownerReady && IsUuid(m.systemUuid)
    ensures var t := Normal(s, m, l);
            && t.mem.status.vmUuid == m.systemUuid && t.prism == s.prism
            && (s.stored.status == s.mem.status && Lands(l.sync) ==> t.stored.status.vmUuid == m.systemUuid)
  {
    assert m.systemUuid != "";
  }

  /** Until its owner has caught up, a ready machine is left as it is but for the finalizer. */
  lemma ReadyWaitsForOwner(s: Scope, m: Machine, l: Luck)
    requires s.mem.status.ready && !s.mem.status.failed && !l.ownerReady
    ensures Normal(s, m, l) == s.(mem := s.mem.(finalizer := true))
  {
  }

  // ---------- failure and the finalizer ----------

  /** A failed machine is left alone for good. */
  lemma FailedIsLeftAlone(s: Scope, m: Machine, l: Luck)
    requires s.mem.status.failed
    ensures Normal(s, m, l) == s
  {
  }

  /** Prism is asked under an ID and what comes back is final: an answer that is not one VM, or such an error. */
  ghost predicate CreateFailsForGood(s: Scope, m: Machine, l: Luck) {
    exists id :: Asks(s, m, l, id) && !Dies(l.create)
      && var answered := l.create == Done
           && (if id in s.prism.requests then s.prism.requests[id].Some? else !l.taskFails);
         if answered then l.reply == NotOneVm else l.createError == Terminal
  }

  lemma FinishKeepsFailed(s: Scope, m: Machine, uuid: string, l: Luck)
    ensures Finished(s, m, uuid, l).mem.status.failed == s.mem.status.failed
  {
  }

  /** The part after the request ID. */
  lemma AskFailsIff(s: Scope, m: Machine, l: Luck, id: string)
    requires Asks(s, m, l, id)
    ensures Normal(s, m, l).mem.status.failed <==> CreateFailsForGood(s, m, l)
  {
    var u := Minted(s.(mem := s.mem.(finalizer := true)), l);
    assert RequestId(u.mem) == id;
    var c := u.(prism := Called(u.prism, id, l), alive := !Dies(l.create));
    if !Dies(l.create) && CreatedVm(c.prism, id, l).Some? {
      var vm := CreatedVm(c.prism, id, l).value;
      FinishKeepsFailed(Recorded(c, vm, l), m, vm, l);
    }
  }

  predicate HasId(s: Scope, l: Luck) {
    RequestId(s.mem) != "" || (l.mint == Done && l.freshId != "")
  }

  /** Exactly what marks a machine as failed for good. */
  lemma FailsIff(s: Scope, m: Machine, l: Luck)
    requires !s.mem.status.failed && !s.mem.status.ready
    ensures Normal(s, m, l).mem.status.failed
       <==> || l.preflight == Terminal
            || (Provisions(s, l) && Searched(s, m, l) == Ok(None) && HasId(s, l) && l.prepare == Terminal)
            || CreateFailsForGood(s, m, l)
  {
    var t := s.(mem := s.mem.(finalizer := true));
    if Provisions(s, l) && Searched(s, m, l) == Ok(None) && HasId(s, l) && l.prepare == Passes {
      AskFailsIff(s, m, l, RequestId(Minted(t, l).mem));
    } else if Provisions(s, l) && Searched(s, m, l).Ok? && Searched(s, m, l).value.Some? {
      var vm := Searched(s, m, l).value.value;
      if vm.extId.Some? { FinishKeepsFailed(t, m, vm.extId.value, l); }
    }
  }

  /** A reconcile of a machine that has not failed leaves the finalizer stored, if it survives and its patch lands. */
  lemma FinalizerStored(w: World, l: Luck)
    requires !w.stored.status.failed && Normal(Read(w), w.machine, l).alive && Lands(l.lastSpec)
    ensures Next(w, Reconciles(l)).stored.finalizer
  {
    FinalizerWaitsForDeferredPatch(Read(w), w.machine, l);
    MemoryHasFinalizer(Read(w), w.machine, l);
  }

  lemma FinishKeepsFinalizer(s: Scope, m: Machine, uuid: string, l: Luck)
    ensures Finished(s, m, uuid, l).mem.finalizer == s.mem.finalizer
  {
  }

  lemma MemoryHasFinalizer(s: Scope, m: Machine, l: Luck)
    requires !s.mem.status.failed
    ensures Normal(s, m, l).mem.finalizer
  {
    var t := s.(mem := s.mem.(finalizer := true));
    match Searched(s, m, l)
    case Err =>
    case Ok(Some(vm)) => if vm.extId.Some? { FinishKeepsFinalizer(t, m, vm.extId.value, l); }
    case Ok(None) =>
      var u := Minted(t, l);
      var id := RequestId(u.mem);
      var c := u.(prism := Called(u.prism, id, l), alive := !Dies(l.create));
      if CreatedVm(c.prism, id, l).Some? {
        var vm := CreatedVm(c.prism, id, l).value;
        FinishKeepsFinalizer(Recorded(c, vm, l), m, vm, l);
      }
  }

  // ---------- writes that do not land ----------

  /** What an earlier stored object keeps while the writes that would change it do not land. */
  predicate KeptUnlanded(was: NutanixMachine, now: NutanixMachine, l: Luck) {
    && (!Lands(l.mint) ==> now.annotations == was.annotations)
    && (!Lands(l.spec) ==> now.providerId == was.providerId)
    && (!Lands(l.status) && !Lands(l.sync) ==> now.status == was.status)
  }

  lemma FinishStoresOnLanding(s: Scope, m: Machine, uuid: string, l: Luck)
    ensures KeptUnlanded(s.stored, Finished(s, m, uuid, l).stored, l)
  {
  }

  lemma MintStoresOnLanding(s: Scope, l: Luck)
    ensures KeptUnlanded(s.stored, Minted(s, l).stored, l)
  {
  }

  lemma RecordStoresOnLanding(s: Scope, m: Machine, uuid: string, l: Luck)
    ensures KeptUnlanded(s.stored, Recorded(s, uuid, l).stored, l)
    ensures KeptUnlanded(s.stored, Finished(Recorded(s, uuid, l), m, uuid, l).stored, l)
  {
    FinishStoresOnLanding(Recorded(s, uuid, l), m, uuid, l);
  }

  lemma CreateStoresOnLanding(s: Scope, m: Machine, l: Luck)
    ensures KeptUnlanded(s.stored, CreatedAndRecorded(s, m, l).stored, l)
  {
    MintStoresOnLanding(s, l);
    var u := Minted(s, l);
    var id := RequestId(u.mem);
    var c := u.(prism := Called(u.prism, id, l), alive := !Dies(l.create));
    if CreatedVm(c.prism, id, l).Some? { RecordStoresOnLanding(c, m, CreatedVm(c.prism, id, l).value, l); }
  }

  /** Before the deferred patch each field stored changes by its own write only, and not unless that lands. */
  lemma StoredOnLanding(s: Scope, m: Machine, l: Luck)
    ensures KeptUnlanded(s.stored, Normal(s, m, l).stored, l)
  {
    var t := s.(mem := s.mem.(finalizer := true));
    CreateStoresOnLanding(t, m, l);
    if Searched(s, m, l).Ok? && Searched(s, m, l).value.Some? && Searched(s, m, l).value.value.extId.Some? {
      FinishStoresOnLanding(t, m, Searched(s, m, l).value.value.extId.value, l);
    }
  }

  // ---------- the deferred patch ----------

  predicate PatchLands(s: Scope, l: Luck) {
    s.alive && Lands(l.lastSpec) && !Dies(l.lastSpec) && Lands(l.lastStatus)
  }

  /** A patch that lands stores what is in memory wherever the reconcile itself has not written in between. */
  lemma PatchStoresMemory(base: NutanixMachine, s: Scope, l: Luck)
    requires PatchLands(s, l)
    ensures var after := Persisted(base, s, l);
            && (s.stored.status == base.status ==> after.status == s.mem.status)
            && (s.stored.finalizer == base.finalizer ==> after.finalizer == s.mem.finalizer)
            && (s.stored.providerId == base.providerId ==> after.providerId == s.mem.providerId)
            && (s.stored.annotations == base.annotations && base.annotations.Keys <= s.mem.annotations.Keys ==>
                  after.annotations == s.mem.annotations)
  {
  }

  /** And it leaves alone what the reconcile has not touched, whoever has written it since, or what does not land. */
  lemma PatchKeepsOthers(base: NutanixMachine, s: Scope, l: Luck)
    ensures var after := Persisted(base, s, l);
            && (s.mem.status == base.status ==> after.status == s.stored.status)
            && (s.mem.finalizer == base.finalizer ==> after.finalizer == s.stored.finalizer)
            && (s.mem.providerId == base.providerId ==> after.providerId == s.stored.providerId)
            && (s.mem.annotations == base.annotations ==> after.annotations == s.stored.annotations)
            && (!s.alive ==> after == s.stored)
            && (!Lands(l.lastSpec) ==> after == s.stored.(status := after.status))
            && (!Lands(l.lastStatus) || Dies(l.lastSpec) ==> after.status == s.stored.status)
  {
  }
}
