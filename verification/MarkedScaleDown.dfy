/**
 A scale-down as CAPI sees it: machines go because they carry the delete mark.

 The balancer's selection reaches CAPI through annotations only, and its passes may come late, with a
 selection made before some of the deletions, or die halfway. After one full pass over machines without
 operator marks, every marked machine is nevertheless a current victim until the scale-down is complete,
 and so the survivors are the balancer's.
 */
module MarkedScaleDown {
  import opened Wrappers
  import opened Sorting
  import opened GreedyBalance
  import opened JointRuns
  import R = PlacementRounds
  import B = ScaleDownBalancer
  import V = VictimProperties
  import D = DeleteMarks

  /** The machines of a MachineSet, and each one's copy with its annotations. */
  datatype Marked = Marked(ms: seq<Member>, copies: seq<D.Copy>)

  /** A pass of the balancer, as far as its budget goes, or the deletion of one machine. */
  datatype Step = Passes(victims: set<string>, budget: nat) | Deletes(i: nat)

  ghost predicate Aligned(c: Marked) {
    && |c.ms| == |c.copies|
    && forall i :: 0 <= i < |c.ms| ==> c.copies[i].name == c.ms[i].name && !c.copies[i].deleting
  }

  /** The names that a selection made now would have. */
  ghost function Selection(ms: seq<Member>, replicas: int): set<string> {
    B.NamesOf(B.Victims(Machines(ms), Some(replicas)))
  }

  function After(c: Marked, s: Step): Marked {
    match s
    case Passes(victims, budget) => c.(copies := D.Outcome(c.copies, victims, budget))
    case Deletes(i) =>
      if i < |c.ms| && i < |c.copies| then Marked(Without(c.ms, i), Without(c.copies, i)) else c
  }

  /** A pass uses the selection of this or an earlier moment; CAPI deletes a machine that is marked. */
  ghost predicate Possible(states: seq<Marked>, steps: seq<Step>, replicas: int, t: nat) {
    && t < |steps| < |states|
    && match steps[t]
       case Passes(victims, _) => exists u :: 0 <= u <= t && victims == Selection(states[u].ms, replicas)
       case Deletes(i) => i < |states[t].copies| && D.DELETE_MACHINE in states[t].copies[i].annotations
  }

  ghost predicate Takes(states: seq<Marked>, steps: seq<Step>, replicas: int, t: nat) {
    Possible(states, steps, replicas, t) && states[t + 1] == After(states[t], steps[t])
  }

  /** The first step is a full pass with a fresh selection. */
  ghost predicate Starts(c: Marked, s: Step, replicas: int) {
    && Aligned(c) && s.Passes? && s.victims == Selection(c.ms, replicas) && D.FullPass(c.copies, s.victims, s.budget)
    && forall i :: 0 <= i < |c.copies| ==> !D.OperatorMarked(c.copies[i])
  }

  ghost predicate MarkedRun(states: seq<Marked>, steps: seq<Step>, replicas: int) {
    && |states| == |steps| + 1 && steps != [] && Starts(states[0], steps[0], replicas)
    && forall t :: 0 <= t < |steps| ==> Takes(states, steps, replicas, t)
  }

  function Deletions(steps: seq<Step>, t: nat): nat
    requires t <= |steps|
  {
    if t == 0 then 0 else Deletions(steps, t - 1) + if steps[t - 1].Deletes? then 1 else 0
  }

  lemma {:induction false} DeletionsGrow(steps: seq<Step>, t: nat, u: nat)
    requires t <= u <= |steps|
    ensures Deletions(steps, t) <= Deletions(steps, u)
  {
    if t < u {
      DeletionsGrow(steps, t, u - 1);
    }
  }

  // ---------- marks ----------

  /** Nobody is marked but machines of the first selection. */
  ghost predicate MarksWithin(c: Marked, names: set<string>) {
    forall i :: 0 <= i < |c.copies| && D.DELETE_MACHINE in c.copies[i].annotations ==> c.copies[i].name in names
  }

  /** A pass marks nobody but its victims. */
  lemma PassMarksVictims(c: Marked, victims: set<string>, budget: nat, names: set<string>)
    requires Aligned(c) && MarksWithin(c, names) && victims <= names
    ensures Aligned(After(c, Passes(victims, budget))) && MarksWithin(After(c, Passes(victims, budget)), names)
  {
  }

  lemma FirstPassMarks(c: Marked, s: Step, replicas: int)
    requires Starts(c, s, replicas)
    ensures Aligned(After(c, s)) && MarksWithin(After(c, s), s.victims)
  {
    D.FullPassSettles(c.copies, s.victims, s.budget);
    var out := D.Outcome(c.copies, s.victims, s.budget);
    forall i | 0 <= i < |out| && D.DELETE_MACHINE in out[i].annotations ensures out[i].name in s.victims {
      assert !D.OperatorMarked(c.copies[i]);
      assert out[i] == D.SettledCopy(c.copies[i], s.victims);
    }
  }

  lemma DeletionKeepsMarks(c: Marked, i: nat, names: set<string>)
    requires Aligned(c) && MarksWithin(c, names) && i < |c.ms|
    ensures Aligned(After(c, Deletes(i))) && MarksWithin(After(c, Deletes(i)), names)
  {
    var later := After(c, Deletes(i));
    forall k | 0 <= k < |later.ms|
      ensures later.ms[k] == c.ms[if k < i then k else k + 1] && later.copies[k] == c.copies[if k < i then k else k + 1]
    {
    }
  }

  // ---------- the deletions so far ----------

  /** The set after each deletion so far, each of a machine that was a victim then. */
  ghost predicate Gone(h: seq<seq<Member>>, first: seq<Member>, now: seq<Member>, replicas: int, d: nat) {
    && |h| == d + 1 && h[0] == first && h[d] == now
    && forall t :: 0 <= t < d ==> DeletesMarked(h[t], h[t + 1], replicas)
  }

  lemma {:induction false} GoneWellFormed(g: R.Group, h: seq<seq<Member>>, first: seq<Member>, now: seq<Member>,
      replicas: int, d: nat, t: nat)
    requires Gone(h, first, now, replicas, d) && t <= d && WellFormed(g, first) && Settled(first)
    ensures WellFormed(g, h[t]) && Settled(h[t])
  {
    if t > 0 {
      GoneWellFormed(g, h, first, now, replicas, d, t - 1);
      assert DeletesMarked(h[t - 1], h[t - 1 + 1], replicas);
      DeletesMarkedDeletesVictim(g, h[t - 1], h[t], replicas);
    }
  }

  lemma {:induction false} GoneIsDeletionRun(g: R.Group, h: seq<seq<Member>>, first: seq<Member>, now: seq<Member>,
      replicas: int, d: nat)
    requires Gone(h, first, now, replicas, d) && WellFormed(g, first) && Settled(first)
    ensures V.DeletionRun(Views(h), Some(replicas))
  {
    assert V.NamesDistinct(Machines(first));
    forall t | 0 <= t < d ensures V.DeletesVictim(Views(h)[t], Views(h)[t + 1], Some(replicas)) {
      GoneWellFormed(g, h, first, now, replicas, d, t);
      assert DeletesMarked(h[t], h[t + 1], replicas);
      DeletesMarkedDeletesVictim(g, h[t], h[t + 1], replicas);
    }
  }

  /** As long as deletions are pending, the current victims are those of the first ones that are left. */
  lemma {:induction false} VictimsLeft(g: R.Group, h: seq<seq<Member>>, first: seq<Member>, now: seq<Member>,
      replicas: int, d: nat)
    requires Gone(h, first, now, replicas, d) && WellFormed(g, first) && Settled(first)
    requires d < B.VictimCount(Machines(first), Some(replicas)) && replicas < |first|
    ensures WellFormed(g, now) && Settled(now) && Remains(first, now, replicas)
  {
    GoneWellFormed(g, h, first, now, replicas, d, d);
    GoneIsDeletionRun(g, h, first, now, replicas, d);
    AllLive(first);
    V.CountWhenPending(Machines(first), Some(replicas));
    V.DeletionRunKeepsChoice(Views(h), Some(replicas), d);
  }

  lemma {:induction false} SameName(all: set<B.Known>, vs: set<B.Known>, now: set<B.Known>, k: B.Known)
    requires vs <= all && now <= all && k in now && k.name in B.NamesOf(vs)
    requires forall a, b :: a in all && b in all && a.name == b.name ==> a == b
    ensures k in vs * now
  {
    var v :| v in vs && v.name == k.name;
  }

  lemma {:induction false} MemberIsKnown(g: R.Group, ms: seq<Member>, i: nat)
    requires WellFormed(g, ms) && Settled(ms) && i < |ms|
    ensures B.KnownSite(AsMachine(ms[i])).Some?
    ensures B.AsKnown(AsMachine(ms[i])) in V.KnownSet(Machines(ms)) && B.AsKnown(AsMachine(ms[i])).name == ms[i].name
  {
    assert Tracked(g, ms[i]);
    V.DeletionLosesOne(Machines(ms), i);
  }

  /** What is left of the first selection. */
  ghost predicate Remains(first: seq<Member>, now: seq<Member>, replicas: int) {
    && V.KnownSet(Machines(now)) <= V.KnownSet(Machines(first))
    && B.Victims(Machines(now), Some(replicas))
      == B.Victims(Machines(first), Some(replicas)) * V.KnownSet(Machines(now))
  }

  /** A machine whose name is in the first selection is a current victim. */
  lemma {:induction false} NamedIsVictim(g: R.Group, first: seq<Member>, now: seq<Member>, replicas: int, i: nat)
    requires WellFormed(g, first) && WellFormed(g, now) && Settled(now) && i < |now|
    requires Remains(first, now, replicas) && now[i].name in Selection(first, replicas)
    ensures IsMarked(now, i, replicas)
  {
    assert V.NamesDistinct(Machines(first));
    V.VictimsSize(Machines(first), Some(replicas));
    V.KnownSetNames(Machines(first));
    MemberIsKnown(g, now, i);
    SameName(V.KnownSet(Machines(first)), B.Victims(Machines(first), Some(replicas)), V.KnownSet(Machines(now)),
             B.AsKnown(AsMachine(now[i])));
  }

  lemma {:induction false} SelectionWithin(first: seq<Member>, now: seq<Member>, replicas: int)
    requires Remains(first, now, replicas)
    ensures Selection(now, replicas) <= Selection(first, replicas)
  {
  }

  lemma {:induction false} GoneNext(h: seq<seq<Member>>, first: seq<Member>, now: seq<Member>, replicas: int,
      d: nat, i: nat)
    returns (longer: seq<seq<Member>>)
    requires Gone(h, first, now, replicas, d) && IsMarked(now, i, replicas)
    ensures Gone(longer, first, Without(now, i), replicas, d + 1)
  {
    longer := h + [Without(now, i)];
    assert DeletesMarked(now, Without(now, i), replicas);
    forall t | 0 <= t < d + 1 ensures DeletesMarked(longer[t], longer[t + 1], replicas) {
      if t < d { assert DeletesMarked(h[t], h[t + 1], replicas); }
    }
  }

  /** Before `t` steps the scale-down was not complete. */
  ghost predicate Pending(states: seq<Marked>, steps: seq<Step>, replicas: int, t: nat)
    requires t <= |steps| && states != []
  {
    t == 0 || Deletions(steps, t - 1) < B.VictimCount(Machines(states[0].ms), Some(replicas))
  }

  ghost predicate ScaleDown(g: R.Group, states: seq<Marked>, steps: seq<Step>, replicas: int) {
    && MarkedRun(states, steps, replicas)
    && WellFormed(g, states[0].ms) && Settled(states[0].ms) && replicas < |states[0].ms|
  }

  /** Up to the completion of a scale-down only victims go, and only the first selection is marked. */
  lemma {:induction false} OnlyVictimsGo(g: R.Group, states: seq<Marked>, steps: seq<Step>, replicas: int, t: nat)
    returns (h: seq<seq<Member>>)
    requires ScaleDown(g, states, steps, replicas) && t <= |steps| && Pending(states, steps, replicas, t)
    ensures Gone(h, states[0].ms, states[t].ms, replicas, Deletions(steps, t)) && Aligned(states[t])
    ensures t > 0 ==> MarksWithin(states[t], Selection(states[0].ms, replicas))
    decreases t, 0
  {
    if t == 0 {
      h := [states[0].ms];
    } else {
      if t > 1 { DeletionsGrow(steps, t - 2, t - 1); }
      h := OnlyVictimsGo(g, states, steps, replicas, t - 1);
      assert Takes(states, steps, replicas, t - 1);
      if t == 1 {
        FirstPassMarks(states[0], steps[0], replicas);
      } else {
        match steps[t - 1]
        case Passes(victims, budget) =>
          LatePass(g, states, steps, replicas, t - 1);
          PassMarksVictims(states[t - 1], victims, budget, Selection(states[0].ms, replicas));
        case Deletes(i) =>
          h := MarkedGoes(g, h, states[0], states[t - 1], replicas, Deletions(steps, t - 1), i);
      }
    }
  }

  /** The selection of a pass, however late, is part of the first one. */
  lemma {:induction false} LatePass(g: R.Group, states: seq<Marked>, steps: seq<Step>, replicas: int, t: nat)
    requires ScaleDown(g, states, steps, replicas) && t < |steps| && steps[t].Passes?
        && Pending(states, steps, replicas, t + 1)
    ensures steps[t].victims <= Selection(states[0].ms, replicas)
    decreases t, 2
  {
    assert Takes(states, steps, replicas, t);
    var u: nat :| 0 <= u <= t && steps[t].victims == Selection(states[u].ms, replicas);
    DeletionsGrow(steps, u, t);
    EarlierSelection(g, states, steps, replicas, u);
  }

  lemma {:induction false} EarlierSelection(g: R.Group, states: seq<Marked>, steps: seq<Step>, replicas: int, u: nat)
    requires ScaleDown(g, states, steps, replicas) && u <= |steps|
    requires Deletions(steps, u) < B.VictimCount(Machines(states[0].ms), Some(replicas))
    ensures Selection(states[u].ms, replicas) <= Selection(states[0].ms, replicas)
    decreases u, 1
  {
    if u > 0 { DeletionsGrow(steps, u - 1, u); }
    var h := OnlyVictimsGo(g, states, steps, replicas, u);
    VictimsLeft(g, h, states[0].ms, states[u].ms, replicas, Deletions(steps, u));
    SelectionWithin(states[0].ms, states[u].ms, replicas);
  }

  /** A marked machine that goes is a victim, and leaves the marks of the others alone. */
  lemma {:induction false} MarkedGoes(g: R.Group, h: seq<seq<Member>>, first: Marked, c: Marked, replicas: int,
      d: nat, i: nat)
    returns (longer: seq<seq<Member>>)
    requires WellFormed(g, first.ms) && Settled(first.ms) && replicas < |first.ms|
    requires Gone(h, first.ms, c.ms, replicas, d) && d < B.VictimCount(Machines(first.ms), Some(replicas))
    requires Aligned(c) && MarksWithin(c, Selection(first.ms, replicas))
    requires i < |c.copies| && D.DELETE_MACHINE in c.copies[i].annotations
    ensures Gone(longer, first.ms, After(c, Deletes(i)).ms, replicas, d + 1)
    ensures Aligned(After(c, Deletes(i))) && MarksWithin(After(c, Deletes(i)), Selection(first.ms, replicas))
  {
    VictimsLeft(g, h, first.ms, c.ms, replicas, d);
    NamedIsVictim(g, first.ms, c.ms, replicas, i);
    longer := GoneNext(h, first.ms, c.ms, replicas, d, i);
    DeletionKeepsMarks(c, i, Selection(first.ms, replicas));
  }

  // ---------- the promises ----------

  /** At every moment before completion, a machine that carries the delete mark is a current victim. */
  lemma {:induction false} MarkedIsVictim(g: R.Group, states: seq<Marked>, steps: seq<Step>, replicas: int, t: nat,
      i: nat)
    requires ScaleDown(g, states, steps, replicas) && 0 < t <= |steps|
    requires Deletions(steps, t) < B.VictimCount(Machines(states[0].ms), Some(replicas))
    requires i < |states[t].copies| && D.DELETE_MACHINE in states[t].copies[i].annotations
    ensures IsMarked(states[t].ms, i, replicas)
  {
    DeletionsGrow(steps, t - 1, t);
    var h := OnlyVictimsGo(g, states, steps, replicas, t);
    VictimsLeft(g, h, states[0].ms, states[t].ms, replicas, Deletions(steps, t));
    NamedIsVictim(g, states[0].ms, states[t].ms, replicas, i);
  }

  /** A scale-down that ends with the last of the deletions that were pending. */
  ghost predicate Completes(g: R.Group, states: seq<Marked>, steps: seq<Step>, replicas: int) {
    && ScaleDown(g, states, steps, replicas) && Pending(states, steps, replicas, |steps|)
    && Deletions(steps, |steps|) == B.VictimCount(Machines(states[0].ms), Some(replicas))
  }

  /** What is deleted by its mark is deleted as a victim: the run is a scale-down of `JointRuns`. */
  lemma {:induction false} MarkedRunScalesDown(g: R.Group, states: seq<Marked>, steps: seq<Step>, replicas: int)
    returns (h: seq<seq<Member>>)
    requires Completes(g, states, steps, replicas)
    ensures ScalesDown(h, replicas) && h[0] == states[0].ms && h[|h| - 1] == states[|steps|].ms
  {
    h := OnlyVictimsGo(g, states, steps, replicas, |steps|);
  }

  /** So the survivors are everyone but the balancer's first choice, and the sites stay balanced. */
  lemma {:induction false} MarkedSurvivors(g: R.Group, states: seq<Marked>, steps: seq<Step>, replicas: int)
    requires Completes(g, states, steps, replicas)
    ensures V.KnownSet(Machines(states[|steps|].ms))
         == V.KnownSet(Machines(states[0].ms)) - B.Victims(Machines(states[0].ms), Some(replicas))
    ensures Balanced(g, states[0].ms) ==> Balanced(g, states[|steps|].ms)
  {
    var h := MarkedRunScalesDown(g, states, steps, replicas);
    ScaleDownSurvivors(g, h, replicas);
    if Balanced(g, h[0]) { ScaleDownBalances(g, h, replicas); }
  }
}
