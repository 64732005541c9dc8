/**
 What the error text of a failed task says, in terms of Prism's replies: which children count as failed, what
 each contributes, and where the pieces are found in the text.
 */
module SubtaskMessages {
  import opened Wrappers
  import opened Sorting
  import opened SubtaskErrors

  // ---------- failed children ----------

  /** Prism resolves the reference to `t`. */
  predicate ResolvesTo(p: Prism, r: Option<string>, t: Task) {
    r.Some? && r.value != "" && r.value in p.gets && p.gets[r.value] == Ok(Some(t))
  }

  /**
   The task is among the parent's children: those that the list names, or if the list fails those that the
   parent's own references resolve to.
   */
  ghost predicate IsChild(p: Prism, parent: string, t: Task) {
    parent in p.lists
    && match p.lists[parent]
       case Ok(listed) => t in listed
       case Err =>
         parent in p.gets && p.gets[parent].Ok? && p.gets[parent].value.Some?
         && exists r :: r in p.gets[parent].value.value.subTasks && ResolvesTo(p, r, t)
  }

  lemma {:induction false} ResolvedMembers(p: Prism, refs: seq<Option<string>>, t: Task)
    ensures t in ResolvedAll(p, refs) <==> exists r :: r in refs && ResolvesTo(p, r, t)
  {
    if refs != [] {
      var n := |refs| - 1;
      ResolvedMembers(p, refs[..n], t);
      assert refs == refs[..n] + [refs[n]];
      assert t in Resolved(p, refs[n]) <==> ResolvesTo(p, refs[n], t);
    }
  }

  lemma {:induction false} FailedMembers(ts: seq<Task>, t: Task)
    ensures t in FailedOf(ts) <==> t in ts && t.status == Some(Failed)
  {
    if ts != [] {
      FailedMembers(ts[..|ts| - 1], t);
      assert ts == ts[..|ts| - 1] + [ts[|ts| - 1]];
    }
  }

  /** A failed child is a child whose status is failed. */
  lemma {:induction false} FailedChildIff(p: Prism, parent: string, t: Task)
    ensures t in FailedChildren(p, parent) <==> IsChild(p, parent, t) && t.status == Some(Failed)
  {
    FailedMembers(Children(p, parent), t);
    if parent in p.lists && p.lists[parent].Err? && parent in p.gets && p.gets[parent].Ok?
      && p.gets[parent].value.Some? {
      ResolvedMembers(p, p.gets[parent].value.value.subTasks, t);
    }
  }

  /** It counts as often as it occurs. */
  lemma {:induction false} FailedCount(ts: seq<Task>, t: Task)
    ensures multiset(FailedOf(ts))[t] == if t.status == Some(Failed) then multiset(ts)[t] else 0
  {
    if ts != [] {
      FailedCount(ts[..|ts| - 1], t);
      assert ts == ts[..|ts| - 1] + [ts[|ts| - 1]];
    }
  }

  /** Failed children are in the order of the children. */
  lemma {:induction false} FailedInOrder(ts: seq<Task>, n: nat)
    requires n <= |ts|
    ensures FailedOf(ts[..n]) <= FailedOf(ts)
  {
    for i := n to |ts|
      invariant FailedOf(ts[..n]) <= FailedOf(ts[..i])
    {
      assert ts[..i + 1][..i] == ts[..i];
    }
    assert ts[..|ts|] == ts;
  }

  /** And children that references resolve to in the order of the references. */
  lemma {:induction false} ResolvedInOrder(p: Prism, refs: seq<Option<string>>, n: nat)
    requires n <= |refs|
    ensures ResolvedAll(p, refs[..n]) <= ResolvedAll(p, refs)
  {
    for i := n to |refs|
      invariant ResolvedAll(p, refs[..n]) <= ResolvedAll(p, refs[..i])
    {
      assert refs[..i + 1][..i] == refs[..i];
    }
    assert refs[..|refs|] == refs;
  }

  function Resolving(p: Prism, refs: seq<Option<string>>, t: Task): set<nat> {
    set i: nat | i < |refs| && ResolvesTo(p, refs[i], t)
  }

  lemma {:induction false} ResolvingLast(p: Prism, refs: seq<Option<string>>, t: Task)
    requires refs != []
    ensures |Resolving(p, refs, t)|
         == |Resolving(p, refs[..|refs| - 1], t)| + if ResolvesTo(p, refs[|refs| - 1], t) then 1 else 0
  {
    var n := |refs| - 1;
    var more := if ResolvesTo(p, refs[n], t) then {n} else {};
    assert Resolving(p, refs, t) == Resolving(p, refs[..n], t) + more;
  }

  /** Once for each reference that resolves to it. */
  lemma {:induction false} ResolvedCount(p: Prism, refs: seq<Option<string>>, t: Task)
    ensures multiset(ResolvedAll(p, refs))[t] == |Resolving(p, refs, t)|
  {
    if refs == [] {
      assert Resolving(p, refs, t) == {};
    } else {
      ResolvedCount(p, refs[..|refs| - 1], t);
      ResolvingLast(p, refs, t);
    }
  }

  /** The children of a task, by the UUID under which the search goes on. */
  lemma {:induction false} EdgeIff(p: Prism, parent: string, child: string)
    ensures Edge(p, parent, child)
       <==> child != "" && exists t :: IsChild(p, parent, t) && t.status == Some(Failed) && t.extId == Some(child)
  {
    if Edge(p, parent, child) {
      var i :| 0 <= i < |FailedChildren(p, parent)| && FailedChildren(p, parent)[i].extId == Some(child);
      FailedChildIff(p, parent, FailedChildren(p, parent)[i]);
    }
    forall t | IsChild(p, parent, t) && t.status == Some(Failed) && t.extId == Some(child)
      ensures exists i :: 0 <= i < |FailedChildren(p, parent)| && FailedChildren(p, parent)[i].extId == Some(child)
    {
      FailedChildIff(p, parent, t);
      var i :| 0 <= i < |FailedChildren(p, parent)| && FailedChildren(p, parent)[i] == t;
    }
  }

  // ---------- texts ----------

  ghost predicate HeldAt(text: string, part: string, i: nat) {
    i + |part| <= |text| && text[i..i + |part|] == part
  }

  /** The part is found in the text. */
  ghost predicate Holds(text: string, part: string) {
    exists i: nat :: HeldAt(text, part, i)
  }

  lemma HoldsWithin(before: string, text: string, after: string, part: string)
    requires Holds(text, part)
    ensures Holds(before + text + after, part)
  {
    var i: nat :| HeldAt(text, part, i);
    var all := before + text + after;
    assert all[|before| + i..|before| + i + |part|] == text[i..i + |part|];
    assert HeldAt(all, part, |before| + i);
  }

  lemma HoldsItself(text: string)
    ensures Holds(text, text)
  {
    assert HeldAt(text, text, 0);
  }

  /** A joined text holds its parts. */
  lemma {:induction false} JoinHolds(parts: seq<string>, separator: string, part: string)
    requires part in parts
    ensures Holds(Join(parts, separator), part)
  {
    var n := |parts| - 1;
    if |parts| == 1 {
      HoldsItself(part);
    } else if part in parts[..n] {
      JoinHolds(parts[..n], separator, part);
      HoldsWithin("", Join(parts[..n], separator), separator + parts[n], part);
      assert "" + Join(parts[..n], separator) + (separator + parts[n]) == Join(parts, separator);
    } else {
      assert part == parts[n];
      HoldsItself(part);
      HoldsWithin(Join(parts[..n], separator) + separator, part, "", part);
      assert Join(parts[..n], separator) + separator + part + "" == Join(parts, separator);
    }
  }

  lemma {:induction false} JoinLast(parts: seq<string>, last: string, separator: string)
    requires parts != []
    ensures Join(parts + [last], separator) == Join(parts, separator) + separator + last
  {
    assert (parts + [last])[..|parts|] == parts;
  }

  lemma TextConcat(a: string, b: string, c: string, d: string)
    ensures a + b + (c + d) == a + b + c + d
  {
  }

  /** Joining is joining the joined. */
  lemma {:induction false} JoinConcat(a: seq<string>, b: seq<string>, separator: string)
    requires a != [] && b != []
    ensures Join(a + b, separator) == Join(a, separator) + separator + Join(b, separator)
  {
    var n := |b| - 1;
    var front, last := b[..n], b[n];
    if n == 0 {
      assert b == [last];
      JoinLast(a, last, separator);
    } else {
      assert a + b == (a + front) + [last];
      JoinConcat(a, front, separator);
      JoinLast(a + front, last, separator);
      assert b == front + [last];
      JoinLast(front, last, separator);
      TextConcat(Join(a, separator), separator, Join(front, separator), separator + last);
    }
  }

  /** What a task was doing: its description, else its operation, else unknown. */
  lemma OperationIs(t: Task)
    ensures t.operationDescription.Some? && t.operationDescription.value != "" ==>
              TaskOperation(t) == t.operationDescription.value
    ensures t.operationDescription in {None, Some("")} && t.operation.Some? && t.operation.value != "" ==>
              TaskOperation(t) == t.operation.value
    ensures t.operationDescription in {None, Some("")} && t.operation in {None, Some("")} ==>
        TaskOperation(t) == "unknown"
  {
  }

  /** Messages are reported in the order of their first occurrence, the legacy one last. */
  lemma {:induction false} PartsInOrder(t: Task, n: nat)
    requires n <= |t.errorMessages|
    ensures Parts(t.errorMessages[..n]) <= Parts(t.errorMessages) <= ErrorParts(t)
  {
    for i := n to |t.errorMessages|
      invariant Parts(t.errorMessages[..n]) <= Parts(t.errorMessages[..i])
    {
      assert t.errorMessages[..i + 1][..i] == t.errorMessages[..i];
    }
    assert t.errorMessages[..|t.errorMessages|] == t.errorMessages;
  }

  /** A message that a task has, in whichever field. */
  predicate HasMessage(t: Task, m: string) {
    m != "" && (Some(m) in t.errorMessages || t.legacyErrorMessage == Some(m))
  }

  lemma PartsAreMessages(t: Task)
    ensures forall m :: m in ErrorParts(t) <==> HasMessage(t, m)
    ensures ErrorParts(t) != [] ==> exists m :: HasMessage(t, m)
  {
    forall m ensures m in ErrorParts(t) <==> HasMessage(t, m) { ErrorPartsExact(t, m); }
    if ErrorParts(t) != [] { assert ErrorParts(t)[0] in ErrorParts(t); }
  }

  lemma {:induction false} MessageHolds(t: Task, m: string)
    requires m in ErrorParts(t)
    ensures Holds(Message(t), m)
  {
    var front := "[" + TaskOperation(t) + "] ";
    JoinHolds(ErrorParts(t), "; ", m);
    HoldsWithin(front, Join(ErrorParts(t), "; "), "", m);
    assert front + Join(ErrorParts(t), "; ") + "" == Message(t);
  }

  /** The text of a failed task: what it was doing in brackets, and every message it has, or that it has none. */
  lemma {:induction false} MessageSays(t: Task)
    ensures "[" + TaskOperation(t) + "] " <= Message(t)
    ensures forall m :: HasMessage(t, m) ==> Holds(Message(t), m)
    ensures (forall m :: !HasMessage(t, m)) ==> Message(t) == "[" + TaskOperation(t) + "] no error message provided"
  {
    PartsAreMessages(t);
    forall m | HasMessage(t, m) ensures Holds(Message(t), m) { MessageHolds(t, m); }
  }

  // ---------- the enriched error ----------

  /** The parent's text leads, and every message of the search is found after it. */
  lemma {:induction false} EnrichedSays(p: Prism, parent: string, text: string)
    requires parent != ""
    ensures var r := Enriched(Some(p), parent, Some(text));
            && r.Some? && text <= r.value
            && (Expand(p, parent, {}).messages != [] ==> text + "; failed_subtasks: " <= r.value)
            && forall m :: m in Expand(p, parent, {}).messages ==> Holds(r.value[|text|..], m)
  {
    var msgs := Expand(p, parent, {}).messages;
    var r := Enriched(Some(p), parent, Some(text)).value;
    if msgs != [] {
      assert r == text + ("; failed_subtasks: " + Join(msgs, "; "));
      forall m | m in msgs ensures Holds(r[|text|..], m) {
        JoinHolds(msgs, "; ", m);
        HoldsWithin("; failed_subtasks: ", Join(msgs, "; "), "", m);
        assert r[|text|..] == "; failed_subtasks: " + Join(msgs, "; ") + "";
      }
    }
  }

  lemma NotEnriched(client: Option<Prism>, parent: string, parentErr: Option<string>)
    requires client.None? || parent == "" || parentErr.None?
    ensures Enriched(client, parent, parentErr) == parentErr
  {
  }

  // ---------- the order of the messages ----------

  lemma {:induction false} FirstChildFirst(p: Prism, children: seq<Task>, seen: set<string>)
    requires children != []
    ensures ExpandChildren(p, children, seen).messages != []
    ensures ExpandChildren(p, children, seen).messages[0] == Message(children[0])
    decreases |children|
  {
    LastChild(p, children, seen);
    if |children| > 1 { FirstChildFirst(p, children[..|children| - 1], seen); }
  }

  /** Each task is expanded before those below it, and a child's own message comes before theirs. */
  lemma {:induction false} ParentsFirst(p: Prism, uuid: string, seen: set<string>)
    requires uuid != "" && uuid !in seen
    ensures Expand(p, uuid, seen).order != [] && Expand(p, uuid, seen).order[0] == uuid
    ensures FailedChildren(p, uuid) != [] ==>
              Expand(p, uuid, seen).messages != []
              && Expand(p, uuid, seen).messages[0] == Message(FailedChildren(p, uuid)[0])
  {
    if FailedChildren(p, uuid) != [] { FirstChildFirst(p, FailedChildren(p, uuid), seen + {uuid}); }
  }
}
