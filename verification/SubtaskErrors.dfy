/**
 Collecting the error messages of failed child tasks: `collectFailedSubtaskErrors`.

 The recursion shares one mutable visited set, so it is a depth-first search of whatever graph the
 Prism replies describe; shared children and cycles included. `Expand` is that search as a
 function: the UUIDs it expands in order, and the messages it reports. The lemmas say what it
 reports without following it.
 */
module SubtaskErrors {
  import opened Wrappers
  import opened Sorting
  import opened Sets

  datatype Status = Failed | Other

  /** The fields of a Prism task that matter here; every one of them may be nil. */
  datatype Task = Task(
    extId: Option<string>,
    status: Option<Status>,
    operationDescription: Option<string>,
    operation: Option<string>,
    errorMessages: seq<Option<string>>,
    legacyErrorMessage: Option<string>,
    subTasks: seq<Option<string>>)

  /**
   The replies of Prism: the filtered task list for a parent, and single tasks, nil ones among them.
   A parent without an entry has no failed children; a task without one cannot be read.
   */
  datatype Prism = Prism(lists: map<string, Result<seq<Task>>>, gets: map<string, Result<Option<Task>>>) {
    function List(parent: string): Result<seq<Task>> {
      if parent in lists then lists[parent] else Ok([])
    }

    function Get(uuid: string): Result<Option<Task>> {
      if uuid in gets then gets[uuid] else Err
    }
  }

  /** `ptr.Deref(s, "")`. */
  function Deref(s: Option<string>): string {
    if s.Some? then s.value else ""
  }

  // ---------- one message ----------

  const UNKNOWN := "unknown"
  const NO_MESSAGE := "no error message provided"

  function TaskOperation(t: Task): string {
    if Deref(t.operationDescription) != "" then t.operationDescription.value
    else if Deref(t.operation) != "" then t.operation.value
    else UNKNOWN
  }

  function Join(parts: seq<string>, separator: string): string {
    if parts == [] then ""
    else if |parts| == 1 then parts[0]
    else Join(parts[..|parts| - 1], separator) + separator + parts[|parts| - 1]
  }

  /** A part once. */
  function With(parts: seq<string>, msg: string): seq<string> {
    if msg == "" || msg in parts then parts else parts + [msg]
  }

  function Parts(messages: seq<Option<string>>): seq<string> {
    if messages == [] then []
    else With(Parts(messages[..|messages| - 1]), Deref(messages[|messages| - 1]))
  }

  function ErrorParts(t: Task): seq<string> {
    With(Parts(t.errorMessages), Deref(t.legacyErrorMessage))
  }

  function Message(t: Task): string {
    "[" + TaskOperation(t) + "] " + Join(if ErrorParts(t) == [] then [NO_MESSAGE] else ErrorParts(t), "; ")
  }

  /** The parts are the task's non-empty messages, each once. */
  lemma {:induction false} PartsExact(messages: seq<Option<string>>, m: string)
    ensures Distinct(Parts(messages))
    ensures m in Parts(messages) <==> m != "" && Some(m) in messages
  {
    if messages != [] {
      var n := |messages| - 1;
      PartsExact(messages[..n], m);
      PartsExact(messages[..n], Deref(messages[n]));
      assert messages == messages[..n] + [messages[n]];
    }
  }

  lemma ErrorPartsExact(t: Task, m: string)
    ensures Distinct(ErrorParts(t))
    ensures m in ErrorParts(t) <==> m != "" && (Some(m) in t.errorMessages || t.legacyErrorMessage == Some(m))
  {
    PartsExact(t.errorMessages, m);
    PartsExact(t.errorMessages, Deref(t.legacyErrorMessage));
  }

  method AppendUnique(parts: seq<string>, msg: string) returns (r: seq<string>)
    ensures r == if msg in parts then parts else parts + [msg]
  {
    for i := 0 to |parts|
      invariant msg !in parts[..i]
    {
      if parts[i] == msg { return parts; }
    }
    return parts + [msg];
  }

  method FormatTaskError(t: Task) returns (r: string)
    ensures r == Message(t)
  {
    var op := TaskOperation(t);
    var parts: seq<string> := [];
    for i := 0 to |t.errorMessages|
      invariant parts == Parts(t.errorMessages[..i])
    {
      assert t.errorMessages[..i + 1][..i] == t.errorMessages[..i];
      var msg := t.errorMessages[i];
      if msg.Some? && msg.value != "" {
        parts := AppendUnique(parts, msg.value);
      }
    }
    assert t.errorMessages[..|t.errorMessages|] == t.errorMessages;
    var legacy := Deref(t.legacyErrorMessage);
    if legacy != "" {
      parts := AppendUnique(parts, legacy);
    }
    if |parts| == 0 {
      parts := parts + [NO_MESSAGE];
    }
    r := "[" + op + "] " + Join(parts, "; ");
  }

  // ---------- the task graph ----------

  /** What a reference of the parent task resolves to. */
  function Resolved(p: Prism, r: Option<string>): seq<Task> {
    if Deref(r) == "" then []
    else match p.Get(r.value)
      case Ok(Some(child)) => [child]
      case _ => []
  }

  function ResolvedAll(p: Prism, refs: seq<Option<string>>): seq<Task> {
    if refs == [] then [] else ResolvedAll(p, refs[..|refs| - 1]) + Resolved(p, refs[|refs| - 1])
  }

  function ParentGet(p: Prism, parent: string): seq<Task> {
    match p.Get(parent)
    case Ok(Some(t)) => ResolvedAll(p, t.subTasks)
    case _ => []
  }

  /** The children a task is known to have: the list, or when it fails the parent's own references. */
  function Children(p: Prism, parent: string): seq<Task> {
    if p.List(parent).Ok? then p.List(parent).value else ParentGet(p, parent)
  }

  predicate IsFailed(t: Task) {
    t.status == Some(Failed)
  }

  function FailedOf(ts: seq<Task>): (r: seq<Task>)
    ensures |r| <= |ts|
  {
    if ts == [] then []
    else FailedOf(ts[..|ts| - 1]) + if IsFailed(ts[|ts| - 1]) then [ts[|ts| - 1]] else []
  }

  function FailedChildren(p: Prism, parent: string): seq<Task> {
    FailedOf(Children(p, parent))
  }

  /** The messages of some tasks, with multiplicity. */
  function Messages(ts: seq<Task>): multiset<string> {
    if ts == [] then multiset{} else Messages(ts[..|ts| - 1]) + multiset{Message(ts[|ts| - 1])}
  }

  /** `child` is a failed child of `parent` that has a UUID. */
  ghost predicate Edge(p: Prism, parent: string, child: string) {
    child != "" && exists i :: 0 <= i < |FailedChildren(p, parent)| && FailedChildren(p, parent)[i].extId == Some(child)
  }

  ghost predicate Path(p: Prism, path: seq<string>) {
    path != [] && forall i :: 0 <= i < |path| - 1 ==> Edge(p, path[i], path[i + 1])
  }

  ghost predicate Reachable(p: Prism, from: string, to: string) {
    exists path :: Path(p, path) && path[0] == from && path[|path| - 1] == to
  }

  // ---------- the search as a function ----------

  /** The UUIDs a search expands, in order, and the messages it returns. */
  datatype Walk = Walk(order: seq<string>, messages: seq<string>)

  function Expand(p: Prism, uuid: string, seen: set<string>): Walk
    decreases |p.lists.Keys - seen|, 0, 1
  {
    if uuid == "" || uuid in seen then Walk([], [])
    else
      FewerUnseen(p.lists.Keys, seen, {uuid});
      var w := ExpandChildren(p, FailedChildren(p, uuid), seen + {uuid});
      Walk([uuid] + w.order, w.messages)
  }

  function ExpandChildren(p: Prism, children: seq<Task>, seen: set<string>): Walk
    decreases |p.lists.Keys - seen|, |children|, 0
  {
    if children == [] then Walk([], [])
    else
      var n := |children| - 1;
      var front := ExpandChildren(p, children[..n], seen);
      FewerUnseen(p.lists.Keys, seen, Elements(front.order));
      var last := Expand(p, Deref(children[n].extId), seen + Elements(front.order));
      Walk(front.order + last.order, front.messages + [Message(children[n])] + last.messages)
  }

  /** The search of some children, with the last one apart. */
  lemma LastChild(p: Prism, children: seq<Task>, seen: set<string>)
    requires children != []
    ensures var front := ExpandChildren(p, children[..|children| - 1], seen);
            var last := Expand(p, Deref(children[|children| - 1].extId), seen + Elements(front.order));
            ExpandChildren(p, children, seen)
            == Walk(front.order + last.order, front.messages + [Message(children[|children| - 1])] + last.messages)
  {
  }

  lemma FewerUnseen(keys: set<string>, seen: set<string>, more: set<string>)
    ensures |keys - (seen + more)| <= |keys - seen|
    ensures more * (keys - seen) != {} ==> |keys - (seen + more)| < |keys - seen|
  {
    assert keys - seen == (keys - (seen + more)) + (more * (keys - seen));
  }

  lemma ElementsJoin(a: seq<string>, b: seq<string>)
    ensures Elements(a + b) == Elements(a) + Elements(b)
  {
  }

  // ---------- the methods ----------

  /** Go's `map[string]struct{}`, shared by the whole recursion. */
  class Visited {
    var seen: set<string>

    constructor ()
      ensures seen == {}
    {
      seen := {};
    }
  }

  method FailedSubtasksFromParentGet(p: Prism, parent: string) returns (children: seq<Task>)
    ensures children == ParentGet(p, parent)
  {
    var got := p.Get(parent);
    if got.Err? { return []; }
    if got.value.None? || |got.value.value.subTasks| == 0 { return []; }
    var refs := got.value.value.subTasks;
    children := [];
    for i := 0 to |refs|
      invariant children == ResolvedAll(p, refs[..i])
    {
      assert refs[..i + 1][..i] == refs[..i];
      if refs[i].None? || refs[i].value == "" { continue; }
      var child := p.Get(refs[i].value);
      if child.Err? { continue; }
      if child.value.Some? {
        children := children + [child.value.value];
      }
    }
    assert refs[..|refs|] == refs;
  }

  ghost function Seen(visited: Visited?): set<string>
    reads visited
  {
    if visited == null then {} else visited.seen
  }

  lemma NextFailed(children: seq<Task>, i: nat)
    requires i < |children|
    ensures FailedOf(children[..i + 1])
         == if IsFailed(children[i]) then FailedOf(children[..i]) + [children[i]] else FailedOf(children[..i])
  {
    assert children[..i + 1][..i] == children[..i];
  }

  /** The loop's progress: what was collected from the first children. */
  ghost predicate Collected(p: Prism, failed: seq<Task>, start: set<string>, msgs: seq<string>, now: set<string>) {
    && msgs == ExpandChildren(p, failed, start).messages
    && now == start + Elements(ExpandChildren(p, failed, start).order)
  }

  lemma {:induction false} CollectedFewer(
      p: Prism, failed: seq<Task>, start: set<string>, msgs: seq<string>, now: set<string>)
    requires Collected(p, failed, start, msgs, now)
    ensures |p.lists.Keys - now| <= |p.lists.Keys - start|
  {
    FewerUnseen(p.lists.Keys, start, Elements(ExpandChildren(p, failed, start).order));
  }

  lemma CollectedNext(p: Prism, failed: seq<Task>, child: Task, start: set<string>, msgs: seq<string>, now: set<string>)
    requires Collected(p, failed, start, msgs, now)
    ensures var last := Expand(p, Deref(child.extId), now);
            Collected(p, failed + [child], start, msgs + [Message(child)] + last.messages, now + Elements(last.order))
    ensures Deref(child.extId) == "" ==> Collected(p, failed + [child], start, msgs + [Message(child)], now)
  {
    var front := ExpandChildren(p, failed, start).order;
    var last := Expand(p, Deref(child.extId), now);
    assert (failed + [child])[..|failed|] == failed;
    ElementsJoin(front, last.order);
    if Deref(child.extId) == "" {
      assert msgs + [Message(child)] + last.messages == msgs + [Message(child)];
      assert now + Elements(last.order) == now;
    }
  }

  method ListOrGet(p: Prism, parent: string) returns (children: seq<Task>)
    ensures children == Children(p, parent)
  {
    var listed := p.List(parent);
    if listed.Ok? { return listed.value; }
    children := FailedSubtasksFromParentGet(p, parent);
  }

  method CollectFailedSubtaskErrors(p: Prism, parent: string, visited: Visited?) returns (msgs: seq<string>)
    modifies visited
    ensures msgs == Expand(p, parent, old(Seen(visited))).messages
    ensures visited != null ==> visited.seen == old(visited.seen) + Elements(Expand(p, parent, old(visited.seen)).order)
    decreases |p.lists.Keys - Seen(visited)|, 1
  {
    ghost var before := Seen(visited);
    if parent == "" {
      NothingToExpand(p, parent, before);
      return [];
    }
    var v: Visited;
    if visited == null { v := new Visited(); } else { v := visited; }
    if parent in v.seen {
      NothingToExpand(p, parent, before);
      return [];
    }
    v.seen := v.seen + {parent};
    var children := ListOrGet(p, parent);
    UnlistedIsLeaf(p, parent, before);
    msgs := CollectFromChildren(p, children, v);
    CollectedRoot(p, parent, before, msgs, v.seen);
  }

  lemma NothingToExpand(p: Prism, parent: string, seen: set<string>)
    requires parent == "" || parent in seen
    ensures Expand(p, parent, seen).messages == []
    ensures seen + Elements(Expand(p, parent, seen).order) == seen
  {
  }

  lemma UnlistedIsLeaf(p: Prism, parent: string, before: set<string>)
    requires parent !in before
    ensures |p.lists.Keys - (before + {parent})| <= |p.lists.Keys - before|
    ensures Children(p, parent) != [] ==> |p.lists.Keys - (before + {parent})| < |p.lists.Keys - before|
  {
    FewerUnseen(p.lists.Keys, before, {parent});
    if parent in p.lists { assert parent in {parent} * (p.lists.Keys - before); }
  }

  lemma CollectedRoot(p: Prism, parent: string, before: set<string>, msgs: seq<string>, now: set<string>)
    requires parent != "" && parent !in before
    requires Collected(p, FailedChildren(p, parent), before + {parent}, msgs, now)
    ensures msgs == Expand(p, parent, before).messages
    ensures now == before + Elements(Expand(p, parent, before).order)
  {
    var order := ExpandChildren(p, FailedChildren(p, parent), before + {parent}).order;
    ElementsJoin([parent], order);
    assert Elements([parent]) == {parent};
  }

  /** The loop over the children of one task. */
  method CollectFromChildren(p: Prism, children: seq<Task>, visited: Visited) returns (msgs: seq<string>)
    modifies visited
    ensures Collected(p, FailedOf(children), old(visited.seen), msgs, visited.seen)
    decreases |p.lists.Keys - visited.seen|, if children == [] then 0 else 2
  {
    msgs := [];
    ghost var start := visited.seen;
    for i := 0 to |children|
      invariant Collected(p, FailedOf(children[..i]), start, msgs, visited.seen)
    {
      NextFailed(children, i);
      var child := children[i];
      if child.status.None? || child.status.value != Failed { continue; }
      CollectedNext(p, FailedOf(children[..i]), child, start, msgs, visited.seen);
      ghost var before := msgs;
      var detail := FormatTaskError(child);
      var childUuid := Deref(child.extId);
      msgs := msgs + [detail];
      if childUuid != "" {
        CollectedFewer(p, FailedOf(children[..i]), start, before, visited.seen);
        var more := CollectFailedSubtaskErrors(p, childUuid, visited);
        msgs := msgs + more;
      }
    }
    assert children[..|children|] == children;
  }

  /** An absent error stays absent; the text of the parent's error always leads. */
  method EnrichTaskError(client: Option<Prism>, parent: string, parentErr: Option<string>) returns (r: Option<string>)
    ensures r == Enriched(client, parent, parentErr)
  {
    if parentErr.None? || parent == "" || client.None? { return parentErr; }
    var visited := new Visited();
    var msgs := CollectFailedSubtaskErrors(client.value, parent, visited);
    if |msgs| == 0 { return parentErr; }
    return Some(parentErr.value + "; failed_subtasks: " + Join(msgs, "; "));
  }

  function Enriched(client: Option<Prism>, parent: string, parentErr: Option<string>): Option<string> {
    if parentErr.None? || parent == "" || client.None? then parentErr
    else
      var msgs := Expand(client.value, parent, {}).messages;
      if msgs == [] then parentErr else Some(parentErr.value + "; failed_subtasks: " + Join(msgs, "; "))
  }

  // ---------- each UUID at most once ----------

  /** No UUID twice, none seen before, and never the empty one. */
  ghost predicate Once(order: seq<string>, seen: set<string>) {
    Distinct(order) && "" !in order && forall i :: 0 <= i < |order| ==> order[i] !in seen
  }

  lemma OnceJoin(a: seq<string>, b: seq<string>, seen: set<string>)
    requires Once(a, seen) && Once(b, seen + Elements(a))
    ensures Once(a + b, seen)
  {
    forall i, j | 0 <= i < |a| && 0 <= j < |b| ensures a[i] != b[j] {
      assert a[i] in Elements(a);
    }
  }

  lemma OnceRoot(uuid: string, order: seq<string>, seen: set<string>)
    requires uuid != "" && uuid !in seen && Once(order, seen + {uuid})
    ensures Once([uuid] + order, seen)
  {
  }

  lemma {:induction false} ExpandedOnce(p: Prism, uuid: string, seen: set<string>)
    ensures Once(Expand(p, uuid, seen).order, seen)
    decreases |p.lists.Keys - seen|, 0, 1
  {
    if uuid != "" && uuid !in seen {
      FewerUnseen(p.lists.Keys, seen, {uuid});
      ChildrenExpandedOnce(p, FailedChildren(p, uuid), seen + {uuid});
      OnceRoot(uuid, ExpandChildren(p, FailedChildren(p, uuid), seen + {uuid}).order, seen);
    }
  }

  lemma {:induction false} ChildrenExpandedOnce(p: Prism, children: seq<Task>, seen: set<string>)
    ensures Once(ExpandChildren(p, children, seen).order, seen)
    decreases |p.lists.Keys - seen|, |children|, 0
  {
    if children != [] {
      var n := |children| - 1;
      var front := ExpandChildren(p, children[..n], seen).order;
      FewerUnseen(p.lists.Keys, seen, Elements(front));
      ChildrenExpandedOnce(p, children[..n], seen);
      ExpandedOnce(p, Deref(children[n].extId), seen + Elements(front));
      OnceJoin(front, Expand(p, Deref(children[n].extId), seen + Elements(front)).order, seen);
    }
  }

  // ---------- exactly what is reachable ----------

  /** The search of some children meets each of them that has a UUID. */
  lemma {:induction false} ChildrenAreMet(p: Prism, children: seq<Task>, seen: set<string>, i: nat)
    requires i < |children| && Deref(children[i].extId) != ""
    ensures var u := children[i].extId.value; u in seen || u in ExpandChildren(p, children, seen).order
    decreases |p.lists.Keys - seen|, |children|, 0
  {
    LastChild(p, children, seen);
    if i < |children| - 1 {
      ChildrenAreMet(p, children[..|children| - 1], seen, i);
    }
  }

  /** Everything expanded leads on only to what was seen before or is expanded too. */
  lemma {:induction false} ExpandedLeadsOn(p: Prism, uuid: string, seen: set<string>, x: string, y: string)
    requires x in Expand(p, uuid, seen).order && Edge(p, x, y)
    ensures y in seen || y in Expand(p, uuid, seen).order
    decreases |p.lists.Keys - seen|, 0, 1
  {
    FewerUnseen(p.lists.Keys, seen, {uuid});
    if x == uuid {
      var i :| 0 <= i < |FailedChildren(p, x)| && FailedChildren(p, x)[i].extId == Some(y);
      ChildrenAreMet(p, FailedChildren(p, uuid), seen + {uuid}, i);
    } else {
      ChildrenLeadOn(p, FailedChildren(p, uuid), seen + {uuid}, x, y);
    }
  }

  lemma {:induction false} ChildrenLeadOn(p: Prism, children: seq<Task>, seen: set<string>, x: string, y: string)
    requires x in ExpandChildren(p, children, seen).order && Edge(p, x, y)
    ensures y in seen || y in ExpandChildren(p, children, seen).order
    decreases |p.lists.Keys - seen|, |children|, 0
  {
    LastChild(p, children, seen);
    var front := ExpandChildren(p, children[..|children| - 1], seen).order;
    FewerUnseen(p.lists.Keys, seen, Elements(front));
    if x in front {
      ChildrenLeadOn(p, children[..|children| - 1], seen, x, y);
    } else {
      ExpandedLeadsOn(p, Deref(children[|children| - 1].extId), seen + Elements(front), x, y);
    }
  }

  lemma {:induction false} AllOfPathExpanded(p: Prism, uuid: string, path: seq<string>, i: nat)
    requires uuid != "" && Path(p, path) && path[0] == uuid && i < |path|
    ensures path[i] in Expand(p, uuid, {}).order
  {
    if i > 0 {
      AllOfPathExpanded(p, uuid, path, i - 1);
      assert Edge(p, path[i - 1], path[i - 1 + 1]);
      ExpandedLeadsOn(p, uuid, {}, path[i - 1], path[i]);
    }
  }

  lemma ReachableSelf(p: Prism, u: string)
    ensures Reachable(p, u, u)
  {
    assert Path(p, [u]) && [u][0] == u && [u][|[u]| - 1] == u;
  }

  lemma PathOn(p: Prism, u: string, path: seq<string>)
    requires Path(p, path) && Edge(p, u, path[0])
    ensures Path(p, [u] + path)
  {
    var longer := [u] + path;
    forall i | 0 <= i < |longer| - 1 ensures Edge(p, longer[i], longer[i + 1]) {
      if i > 0 { assert Edge(p, path[i - 1], path[i - 1 + 1]); }
    }
  }

  lemma ReachableOn(p: Prism, u: string, v: string, w: string)
    requires Edge(p, u, v) && Reachable(p, v, w)
    ensures Reachable(p, u, w)
  {
    var path :| Path(p, path) && path[0] == v && path[|path| - 1] == w;
    PathOn(p, u, path);
    var longer := [u] + path;
    assert Path(p, longer) && longer[0] == u && longer[|longer| - 1] == w;
  }

  lemma {:induction false} ExpandedIsReachable(p: Prism, uuid: string, seen: set<string>, x: string)
    requires x in Expand(p, uuid, seen).order
    ensures Reachable(p, uuid, x)
    decreases |p.lists.Keys - seen|, 0, 1
  {
    ReachableSelf(p, x);
    if x != uuid {
      FewerUnseen(p.lists.Keys, seen, {uuid});
      var child := ChildrenExpandedIsReachable(p, FailedChildren(p, uuid), seen + {uuid}, x);
      ReachableOn(p, uuid, child, x);
    }
  }

  lemma {:induction false} ChildrenExpandedIsReachable(p: Prism, children: seq<Task>, seen: set<string>, x: string)
    returns (child: string)
    requires x in ExpandChildren(p, children, seen).order
    ensures child != "" && Reachable(p, child, x)
    ensures exists i :: 0 <= i < |children| && children[i].extId == Some(child)
    decreases |p.lists.Keys - seen|, |children|, 0
  {
    var n := |children| - 1;
    var front := ExpandChildren(p, children[..n], seen).order;
    if x in front {
      child := ChildrenExpandedIsReachable(p, children[..n], seen, x);
      var i :| 0 <= i < n && children[..n][i].extId == Some(child);
      assert children[i].extId == Some(child);
    } else {
      child := Deref(children[n].extId);
      FewerUnseen(p.lists.Keys, seen, Elements(front));
      ExpandedIsReachable(p, child, seen + Elements(front), x);
    }
  }

  /** A search expands exactly the tasks reachable through failed children, each of them once. */
  lemma ExpandsExactlyReachable(p: Prism, uuid: string, x: string)
    requires uuid != ""
    ensures Distinct(Expand(p, uuid, {}).order)
    ensures x in Expand(p, uuid, {}).order <==> Reachable(p, uuid, x)
  {
    ExpandedOnce(p, uuid, {});
    if x in Expand(p, uuid, {}).order {
      ExpandedIsReachable(p, uuid, {}, x);
    } else if Reachable(p, uuid, x) {
      var path :| Path(p, path) && path[0] == uuid && path[|path| - 1] == x;
      AllOfPathExpanded(p, uuid, path, |path| - 1);
      assert false;
    }
  }

  // ---------- exactly which messages ----------

  function OwedFor(p: Prism, uuid: string): multiset<string> {
    Messages(FailedChildren(p, uuid))
  }

  function Total(ms: seq<multiset<string>>): multiset<string> {
    if ms == [] then multiset{} else Total(ms[..|ms| - 1]) + ms[|ms| - 1]
  }

  lemma {:induction false} TotalConcat(a: seq<multiset<string>>, b: seq<multiset<string>>)
    ensures Total(a + b) == Total(a) + Total(b)
  {
    if b == [] {
      assert a + b == a;
    } else {
      var n := |b| - 1;
      TotalConcat(a, b[..n]);
      assert (a + b)[..|a| + n] == a + b[..n];
    }
  }

  lemma TotalOne(x: multiset<string>)
    ensures Total([x]) == x
  {
    assert [x][..0] == [] && multiset{} + x == x;
  }

  function OwedEach(p: Prism, order: seq<string>): (r: seq<multiset<string>>)
    ensures |r| == |order|
  {
    seq(|order|, i requires 0 <= i < |order| => OwedFor(p, order[i]))
  }

  /** The messages of the failed children of the listed tasks, with multiplicity. */
  function Owed(p: Prism, order: seq<string>): multiset<string> {
    Total(OwedEach(p, order))
  }

  lemma {:induction false} OwedConcat(p: Prism, a: seq<string>, b: seq<string>)
    ensures Owed(p, a + b) == Owed(p, a) + Owed(p, b)
  {
    assert OwedEach(p, a + b) == OwedEach(p, a) + OwedEach(p, b);
    TotalConcat(OwedEach(p, a), OwedEach(p, b));
  }

  lemma {:induction false} ReportsOwed(p: Prism, uuid: string, seen: set<string>)
    ensures multiset(Expand(p, uuid, seen).messages) == Owed(p, Expand(p, uuid, seen).order)
    decreases |p.lists.Keys - seen|, 0, 1
  {
    if uuid != "" && uuid !in seen {
      FewerUnseen(p.lists.Keys, seen, {uuid});
      ChildrenReportOwed(p, FailedChildren(p, uuid), seen + {uuid});
      OwedConcat(p, [uuid], ExpandChildren(p, FailedChildren(p, uuid), seen + {uuid}).order);
      OwedOne(p, uuid);
    }
  }

  lemma OwedOne(p: Prism, uuid: string)
    ensures Owed(p, [uuid]) == OwedFor(p, uuid)
  {
    assert OwedEach(p, [uuid]) == [OwedFor(p, uuid)];
    TotalOne(OwedFor(p, uuid));
  }

  /** A walk that reports its first tasks and what it owes for the ones it expanded. */
  ghost predicate Reports(p: Prism, children: seq<Task>, w: Walk) {
    multiset(w.messages) == Messages(children) + Owed(p, w.order)
  }

  lemma ReportsJoin(p: Prism, children: seq<Task>, front: Walk, last: Walk)
    requires children != [] && Reports(p, children[..|children| - 1], front) && Reports(p, [], last)
    ensures Reports(p, children,
              Walk(front.order + last.order, front.messages + [Message(children[|children| - 1])] + last.messages))
  {
    OwedConcat(p, front.order, last.order);
  }

  lemma {:induction false} ChildrenReportOwed(p: Prism, children: seq<Task>, seen: set<string>)
    ensures Reports(p, children, ExpandChildren(p, children, seen))
    decreases |p.lists.Keys - seen|, |children|, 0
  {
    if children != [] {
      var n := |children| - 1;
      var front := ExpandChildren(p, children[..n], seen);
      FewerUnseen(p.lists.Keys, seen, Elements(front.order));
      ChildrenReportOwed(p, children[..n], seen);
      ReportsOwed(p, Deref(children[n].extId), seen + Elements(front.order));
      ReportsJoin(p, children, front, Expand(p, Deref(children[n].extId), seen + Elements(front.order)));
      LastChild(p, children, seen);
    }
  }

  /** One message per failed-child occurrence of an expanded task, neither more nor fewer. */
  lemma MessagesExact(p: Prism, uuid: string)
    ensures multiset(Expand(p, uuid, {}).messages) == Owed(p, Expand(p, uuid, {}).order)
  {
    ReportsOwed(p, uuid, {});
  }

  /** The parent's own failed children are enough to decide whether its error is extended at all. */
  lemma EnrichedIffFailedChild(p: Prism, parent: string, text: string)
    requires parent != ""
    ensures Enriched(Some(p), parent, Some(text)) != Some(text) <==> FailedChildren(p, parent) != []
  {
    var msgs := Expand(p, parent, {}).messages;
    assert |text + "; failed_subtasks: " + Join(msgs, "; ")| > |text|;
    if FailedChildren(p, parent) == [] {
      assert ExpandChildren(p, [], {} + {parent}).messages == [];
    } else {
      LastChild(p, FailedChildren(p, parent), {} + {parent});
    }
  }
}
