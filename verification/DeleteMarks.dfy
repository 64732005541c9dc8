/**
 Keeping the delete-machine annotations in step with the chosen victims: `applyDeleteAnnotations`.

 A machine object stands for its copy on the API server; a patch replaces both of the controller's
 annotations in one request. `budget` is how many requests succeed before one fails or the
 controller dies, so every prefix of a pass is some call of the method.
 */
module DeleteMarks {

  const DELETE_MACHINE := "cluster.x-k8s.io/delete-machine"
  const MANAGED_DELETE_MACHINE := "metro.nutanix.com/managed-delete-machine"

  type Annotations = map<string, string>

  /** What `patchMachineAnnotations` leaves behind. */
  function Patched(a: Annotations, mark: bool): Annotations {
    if mark then a[DELETE_MACHINE := "true"][MANAGED_DELETE_MACHINE := "true"]
    else a - {DELETE_MACHINE, MANAGED_DELETE_MACHINE}
  }

  /** A machine as a value. */
  datatype Copy = Copy(name: string, deleting: bool, annotations: Annotations)

  /** Whether a pass has anything to do for a machine. */
  predicate NeedsPatch(m: Copy, victims: set<string>) {
    && !m.deleting
    && if m.name in victims then DELETE_MACHINE !in m.annotations else MANAGED_DELETE_MACHINE in m.annotations
  }

  function PatchedCopy(m: Copy, victims: set<string>): Copy {
    m.(annotations := Patched(m.annotations, m.name in victims))
  }

  /** The patches that the first `n` machines need. */
  function Needed(ms: seq<Copy>, victims: set<string>, n: nat): nat
    requires n <= |ms|
  {
    if n == 0 then 0 else Needed(ms, victims, n - 1) + if NeedsPatch(ms[n - 1], victims) then 1 else 0
  }

  /** The machines after a pass of which `budget` patches go through. */
  function Outcome(ms: seq<Copy>, victims: set<string>, budget: nat): (r: seq<Copy>)
    ensures |r| == |ms|
  {
    seq(|ms|, i requires 0 <= i < |ms| =>
      if NeedsPatch(ms[i], victims) && Needed(ms, victims, i) < budget then PatchedCopy(ms[i], victims) else ms[i])
  }

  // ---------- the methods ----------

  class Machine {
    const name: string
    const deleting: bool
    var annotations: Annotations

    constructor (name: string, deleting: bool, annotations: Annotations)
      ensures this.name == name && this.deleting == deleting && this.annotations == annotations
    {
      this.name, this.deleting, this.annotations := name, deleting, annotations;
    }

    function AsCopy(): Copy
      reads this
    {
      Copy(name, deleting, annotations)
    }

    /** One conflict-safe patch. */
    method PatchMachineAnnotations(mark: bool)
      modifies this`annotations
      ensures annotations == Patched(old(annotations), mark)
    {
      if mark {
        annotations := annotations[DELETE_MACHINE := "true"];
        annotations := annotations[MANAGED_DELETE_MACHINE := "true"];
      } else {
        annotations := annotations - {DELETE_MACHINE};
        annotations := annotations - {MANAGED_DELETE_MACHINE};
      }
    }
  }

  function Copies(machines: seq<Machine>): (r: seq<Copy>)
    reads machines
    ensures |r| == |machines|
  {
    seq(|machines|, i requires 0 <= i < |machines| reads machines => machines[i].AsCopy())
  }

  /** One round of the loop: a patch if the machine needs one, as long as there are requests left that succeed. */
  method ReconcileMarks(m: Machine, victims: set<string>, left: nat) returns (ok: bool, rest: nat)
    modifies m
    ensures ok <==> !NeedsPatch(old(m.AsCopy()), victims) || left > 0
    ensures rest == if ok && NeedsPatch(old(m.AsCopy()), victims) then left - 1 else left
    ensures m.AsCopy() == if ok then SettledCopy(old(m.AsCopy()), victims) else old(m.AsCopy())
  {
    if m.deleting { return true, left; }
    if m.name in victims {
      if DELETE_MACHINE in m.annotations { return true, left; }
      if left == 0 { return false, left; }
      m.PatchMachineAnnotations(true);
      return true, left - 1;
    }
    if MANAGED_DELETE_MACHINE in m.annotations {
      if left == 0 { return false, left; }
      m.PatchMachineAnnotations(false);
      return true, left - 1;
    }
    return true, left;
  }

  /** The loop: how many machines it is done with when it ends or a patch fails. */
  method ReconcileFirst(machines: seq<Machine>, victims: set<string>, budget: nat) returns (done: nat)
    requires forall i, j :: 0 <= i < j < |machines| ==> machines[i] != machines[j]
    modifies machines
    ensures done <= |machines|
    ensures forall j :: 0 <= j < done ==> machines[j].AsCopy() == SettledCopy(old(machines[j].AsCopy()), victims)
    ensures forall j :: done <= j < |machines| ==> machines[j].AsCopy() == old(machines[j].AsCopy())
    ensures Stops(old(Copies(machines)), victims, budget, done)
  {
    ghost var before := Copies(machines);
    var left := budget;
    done := 0;
    while done < |machines|
      invariant done <= |machines| && left == budget - Needed(before, victims, done)
      invariant forall j :: 0 <= j < done ==> machines[j].AsCopy() == SettledCopy(before[j], victims)
      invariant forall j :: done <= j < |machines| ==> machines[j].AsCopy() == before[j]
    {
      var ok;
      ok, left := ReconcileMarks(machines[done], victims, left);
      if !ok { return; }
      done := done + 1;
    }
  }

  /** Where a pass ends: after the last machine, or before the first patch that fails. */
  ghost predicate Stops(ms: seq<Copy>, victims: set<string>, budget: nat, done: nat) {
    && done <= |ms| && Needed(ms, victims, done) <= budget
    && (done < |ms| ==> NeedsPatch(ms[done], victims) && Needed(ms, victims, done) == budget)
  }

  method ApplyDeleteAnnotations(machines: seq<Machine>, victims: set<string>, budget: nat) returns (ok: bool)
    requires forall i, j :: 0 <= i < j < |machines| ==> machines[i] != machines[j]
    modifies machines
    ensures Copies(machines) == Outcome(old(Copies(machines)), victims, budget)
    ensures ok <==> Needed(old(Copies(machines)), victims, |machines|) <= budget
  {
    ghost var before := Copies(machines);
    var done := ReconcileFirst(machines, victims, budget);
    StopsIsOutcome(before, Copies(machines), victims, budget, done);
    return done == |machines|;
  }

  lemma StopsIsOutcome(before: seq<Copy>, after: seq<Copy>, victims: set<string>, budget: nat, done: nat)
    requires |after| == |before| && Stops(before, victims, budget, done)
    requires forall j :: 0 <= j < |before| ==>
        after[j] == if j < done then SettledCopy(before[j], victims) else before[j]
    ensures after == Outcome(before, victims, budget)
    ensures done == |before| <==> Needed(before, victims, |before|) <= budget
  {
    forall j | 0 <= j < |before| ensures after[j] == Outcome(before, victims, budget)[j] {
      if j < done && NeedsPatch(before[j], victims) { NeededPositive(before, victims, j, done); }
      if done < |before| && j >= done { NothingBeyond(before, victims, budget, done); }
    }
    if done < |before| { NothingBeyond(before, victims, budget, done); }
  }

  /** Once a patch fails, no later machine is touched. */
  lemma NothingBeyond(ms: seq<Copy>, victims: set<string>, budget: nat, i: nat)
    requires i < |ms| && NeedsPatch(ms[i], victims) && Needed(ms, victims, i) == budget
    ensures forall j :: i <= j < |ms| ==> Outcome(ms, victims, budget)[j] == ms[j]
    ensures Needed(ms, victims, |ms|) > budget
  {
    forall j | i <= j <= |ms| ensures Needed(ms, victims, j) >= Needed(ms, victims, i) {
      NeededMonotone(ms, victims, i, j);
    }
    NeededMonotone(ms, victims, i + 1, |ms|);
  }

  lemma {:induction false} NeededMonotone(ms: seq<Copy>, victims: set<string>, i: nat, j: nat)
    requires i <= j <= |ms|
    ensures Needed(ms, victims, i) <= Needed(ms, victims, j)
  {
    if i < j {
      NeededMonotone(ms, victims, i, j - 1);
    }
  }

  // ---------- what a pass guarantees ----------

  ghost predicate FullPass(ms: seq<Copy>, victims: set<string>, budget: nat) {
    Needed(ms, victims, |ms|) <= budget
  }

  /** The whole pass as a single step per machine. */
  function SettledCopy(m: Copy, victims: set<string>): Copy {
    if NeedsPatch(m, victims) then PatchedCopy(m, victims) else m
  }

  lemma {:induction false} NeededPositive(ms: seq<Copy>, victims: set<string>, i: nat, n: nat)
    requires i < n <= |ms| && NeedsPatch(ms[i], victims)
    ensures Needed(ms, victims, i) < Needed(ms, victims, n)
  {
    NeededMonotone(ms, victims, i + 1, n);
  }

  lemma FullPassSettles(ms: seq<Copy>, victims: set<string>, budget: nat)
    requires FullPass(ms, victims, budget)
    ensures forall i :: 0 <= i < |ms| ==> Outcome(ms, victims, budget)[i] == SettledCopy(ms[i], victims)
  {
    forall i | 0 <= i < |ms| && NeedsPatch(ms[i], victims) ensures Needed(ms, victims, i) < budget {
      NeededPositive(ms, victims, i, |ms|);
    }
  }

  /** From any annotations, a full pass marks every live victim and leaves the managed mark on victims only. */
  lemma FullPassMarks(ms: seq<Copy>, victims: set<string>, budget: nat, i: nat)
    requires FullPass(ms, victims, budget) && i < |ms| && !ms[i].deleting
    ensures var a := Outcome(ms, victims, budget)[i].annotations;
            && (ms[i].name in victims ==> DELETE_MACHINE in a)
            && (MANAGED_DELETE_MACHINE in a ==> ms[i].name in victims)
  {
    FullPassSettles(ms, victims, budget);
  }

  /**
   Exactly who is marked after a full pass: the delete mark is on the victims and on machines that an
   operator marked; the managed one on those victims that nobody else had marked. A new mark says "true".
   */
  lemma FullPassExact(ms: seq<Copy>, victims: set<string>, budget: nat, i: nat)
    requires FullPass(ms, victims, budget) && i < |ms| && !ms[i].deleting
    ensures var was, a := ms[i].annotations, Outcome(ms, victims, budget)[i].annotations;
            && (DELETE_MACHINE in a
              <==> ms[i].name in victims || (DELETE_MACHINE in was && MANAGED_DELETE_MACHINE !in was))
            && (MANAGED_DELETE_MACHINE in a <==>
                  ms[i].name in victims && (DELETE_MACHINE in was ==> MANAGED_DELETE_MACHINE in was))
            && (DELETE_MACHINE in a && DELETE_MACHINE !in was ==>
                  a[DELETE_MACHINE] == "true" && MANAGED_DELETE_MACHINE in a && a[MANAGED_DELETE_MACHINE] == "true")
            && (DELETE_MACHINE in a && DELETE_MACHINE in was ==> a[DELETE_MACHINE] == was[DELETE_MACHINE])
  {
    FullPassSettles(ms, victims, budget);
  }

  /** Nothing but the two marks is touched, and nothing at all on a machine that is being deleted. */
  lemma PassTouchesMarksOnly(ms: seq<Copy>, victims: set<string>, budget: nat, i: nat)
    requires i < |ms|
    ensures var out := Outcome(ms, victims, budget)[i];
            && out.name == ms[i].name && out.deleting == ms[i].deleting
            && out.annotations - {DELETE_MACHINE, MANAGED_DELETE_MACHINE}
                 == ms[i].annotations - {DELETE_MACHINE, MANAGED_DELETE_MACHINE}
            && (ms[i].deleting ==> out == ms[i])
  {
  }

  /** A pass right after a full one has nothing to patch. */
  lemma SecondPassIdle(ms: seq<Copy>, victims: set<string>, budget: nat)
    requires FullPass(ms, victims, budget)
    ensures Needed(Outcome(ms, victims, budget), victims, |ms|) == 0
  {
    FullPassSettles(ms, victims, budget);
    NothingNeeded(Outcome(ms, victims, budget), victims, |ms|);
  }

  lemma {:induction false} NothingNeeded(ms: seq<Copy>, victims: set<string>, n: nat)
    requires n <= |ms| && forall i :: 0 <= i < n ==> !NeedsPatch(ms[i], victims)
    ensures Needed(ms, victims, n) == 0
  {
    if n > 0 {
      NothingNeeded(ms, victims, n - 1);
    }
  }

  /** After a crash at any point of a pass, a full pass reaches what an undisturbed one would have. */
  lemma CrashThenFullPass(ms: seq<Copy>, victims: set<string>, cut: nat, again: nat, undisturbed: nat)
    requires FullPass(ms, victims, undisturbed)
    requires FullPass(Outcome(ms, victims, cut), victims, again)
    ensures Outcome(Outcome(ms, victims, cut), victims, again) == Outcome(ms, victims, undisturbed)
  {
    FullPassSettles(ms, victims, undisturbed);
    FullPassSettles(Outcome(ms, victims, cut), victims, again);
  }

  // ---------- operator marks over whole runs ----------

  /** One pass of a run: the victims chosen then, and how far it got. */
  datatype Pass = Pass(victims: set<string>, budget: nat)

  function RunPasses(ms: seq<Copy>, run: seq<Pass>): (r: seq<Copy>)
    ensures |r| == |ms|
  {
    if run == [] then ms
    else var last := run[|run| - 1]; Outcome(RunPasses(ms, run[..|run| - 1]), last.victims, last.budget)
  }

  predicate OperatorMarked(m: Copy) {
    DELETE_MACHINE in m.annotations && MANAGED_DELETE_MACHINE !in m.annotations
  }

  /** A delete mark without the managed marker survives every run, with its value, unclaimed. */
  lemma {:induction false} OperatorMarkSurvives(ms: seq<Copy>, run: seq<Pass>, i: nat)
    requires i < |ms| && OperatorMarked(ms[i])
    ensures RunPasses(ms, run)[i] == ms[i]
  {
    if run != [] {
      OperatorMarkSurvives(ms, run[..|run| - 1], i);
    }
  }

  /**
   The two marks always travel together: a machine that starts without the managed marker carries it
   only beside a delete mark of the controller's own.
   */
  lemma {:induction false} ManagedImpliesDelete(ms: seq<Copy>, run: seq<Pass>, i: nat)
    requires i < |ms| && MANAGED_DELETE_MACHINE !in ms[i].annotations
    ensures var a := RunPasses(ms, run)[i].annotations;
            MANAGED_DELETE_MACHINE in a ==> DELETE_MACHINE in a && DELETE_MACHINE !in ms[i].annotations
  {
    if OperatorMarked(ms[i]) {
      OperatorMarkSurvives(ms, run, i);
    } else if run != [] {
      ManagedImpliesDelete(ms, run[..|run| - 1], i);
    }
  }
}
