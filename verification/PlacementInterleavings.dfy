/**
 Placement with reads and writes apart: a reconcile reads the listing and decides, and its label may be
 persisted any time later, with other reads, writes and arrivals in between.

 Such a run need not end balanced. It does exactly when no write goes to a site that the fill still to
 come has no place left on, and in particular when every read finds the decisions under way still
 current. Rounds are a special case of that.
 */
module PlacementInterleavings {
  import opened Wrappers
  import opened Sorting
  import opened GreedyBalance
  import opened MetroPlacement
  import opened PlacementRounds

  /** The stored machines, and the decisions not persisted yet. */
  datatype Flight = Flight(ms: seq<NutanixMachine>, out: map<string, nat>)

  datatype Event = Reads(x: string) | Writes(y: string) | Appear(newcomers: seq<NutanixMachine>)

  /** No two reconciles of one machine run at a time. */
  ghost predicate Possible(g: Group, s: Flight, e: Event) {
    match e
    case Reads(x) => x in PendingSet(g, s.ms) && x !in s.out
    case Writes(y) => y in s.out
    case Appear(ns) => WellFormed(g, s.ms + ns) && forall i :: 0 <= i < |ns| ==> IsPending(g, ns[i])
  }

  function After(g: Group, s: Flight, e: Event): Flight
    requires |g.fds| > 0
  {
    match e
    case Reads(x) => s.(out := s.out[x := PlacementIndex(ViewOf(g, x), s.ms)])
    case Writes(y) => if y in s.out then Flight(Persist(g, s.ms, map[y := s.out[y]]), s.out - {y}) else s
    case Appear(ns) => s.(ms := s.ms + ns)
  }

  ghost predicate Leads(g: Group, s: Flight, e: Event, t: Flight) {
    |g.fds| > 0 && Possible(g, s, e) && t == After(g, s, e)
  }

  ghost predicate LeadsAt(g: Group, states: seq<Flight>, events: seq<Event>, t: nat) {
    t < |events| < |states| && Leads(g, states[t], events[t], states[t + 1])
  }

  ghost predicate Interleaving(g: Group, states: seq<Flight>, events: seq<Event>) {
    && |states| == |events| + 1 && WellFormed(g, states[0].ms) && states[0].out == map[]
    && forall t :: 0 <= t < |events| ==> LeadsAt(g, states, events, t)
  }

  function Arriving(e: Event): nat {
    if e.Appear? then |e.newcomers| else 0
  }

  /** How many machines have still to appear after `t` events. */
  function ToCome(events: seq<Event>, t: nat): nat
    requires t <= |events|
    decreases |events| - t
  {
    if t == |events| then 0 else Arriving(events[t]) + ToCome(events, t + 1)
  }

  // ---------- what every event keeps ----------

  /** Decisions under way are for pending machines, and for sites of the metro. */
  ghost predicate Sane(g: Group, s: Flight) {
    && WellFormed(g, s.ms) && s.out.Keys <= PendingSet(g, s.ms)
    && forall y :: y in s.out ==> s.out[y] < |g.fds|
  }

  lemma {:induction false} SentToOne(ms: seq<NutanixMachine>, y: string, i: nat, j: nat)
    ensures SentTo(ms, map[y := i], j) == if j == i && exists k :: 0 <= k < |ms| && ms[k].name == y then {y} else {}
  {
    if ms != [] {
      SentToOne(ms[..|ms| - 1], y, i, j);
    }
  }

  lemma {:induction false} OneAssigns(g: Group, ms: seq<NutanixMachine>, y: string, i: nat)
    requires WellFormed(g, ms) && y in PendingSet(g, ms) && i < |g.fds|
    ensures Assigns(g, ms, map[y := i])
    ensures exists k :: 0 <= k < |ms| && ms[k].name == y
  {
    PendingSetMembers(g, ms, y);
  }

  lemma {:induction false} PersistOneColumn(g: Group, ms: seq<NutanixMachine>, y: string, i: nat, j: nat)
    requires WellFormed(g, ms) && y in PendingSet(g, ms) && i < |g.fds| && j < |g.fds|
    ensures Count(Overview(g), Persist(g, ms, map[y := i]), AtSite(j))
         == Count(Overview(g), ms, AtSite(j)) + if j == i then 1 else 0
  {
    OneAssigns(g, ms, y, i);
    PersistCounts(g, ms, map[y := i], j);
    SentToOne(ms, y, i, j);
  }

  /** One label persisted: one more machine at its site, one fewer pending. */
  lemma {:induction false} PersistOne(g: Group, ms: seq<NutanixMachine>, y: string, i: nat)
    requires WellFormed(g, ms) && y in PendingSet(g, ms) && i < |g.fds|
    ensures WellFormed(g, Persist(g, ms, map[y := i]))
    ensures Counts(g, Persist(g, ms, map[y := i])) == Bump(Counts(g, ms), i)
    ensures PendingSet(g, Persist(g, ms, map[y := i])) == PendingSet(g, ms) - {y}
  {
    OneAssigns(g, ms, y, i);
    PersistKeepsWellFormed(g, ms, map[y := i]);
    PersistPending(g, ms, map[y := i]);
    assert map[y := i].Keys == {y};
    forall j | 0 <= j < |g.fds|
      ensures Count(Overview(g), Persist(g, ms, map[y := i]), AtSite(j))
           == Count(Overview(g), ms, AtSite(j)) + if j == i then 1 else 0
    {
      PersistOneColumn(g, ms, y, i, j);
    }
  }

  lemma {:induction false} PendingGrows(g: Group, ms: seq<NutanixMachine>, ns: seq<NutanixMachine>)
    ensures PendingSet(g, ms) <= PendingSet(g, ms + ns)
  {
    forall x | x in PendingSet(g, ms) ensures x in PendingSet(g, ms + ns) {
      PendingSetMembers(g, ms, x);
      PendingSetMembers(g, ms + ns, x);
      var i :| 0 <= i < |ms| && IsPending(g, ms[i]) && ms[i].name == x;
      assert (ms + ns)[i] == ms[i];
    }
  }

  lemma {:induction false} SaneStays(g: Group, s: Flight, e: Event, t: Flight)
    requires Sane(g, s) && Leads(g, s, e, t)
    ensures Sane(g, t)
  {
    match e
    case Reads(x) =>
    case Writes(y) => PersistOne(g, s.ms, y, s.out[y]);
    case Appear(ns) => PendingGrows(g, s.ms, ns);
  }

  lemma {:induction false} SaneThroughout(g: Group, states: seq<Flight>, events: seq<Event>, t: nat)
    requires Interleaving(g, states, events) && t <= |events|
    ensures Sane(g, states[t])
  {
    if t > 0 {
      SaneThroughout(g, states, events, t - 1);
      assert LeadsAt(g, states, events, t - 1);
      SaneStays(g, states[t - 1], events[t - 1], states[t]);
    }
  }

  /** No event takes a machine off a site. */
  lemma {:induction false} CountsGrow(g: Group, s: Flight, e: Event, t: Flight)
    requires Sane(g, s) && Leads(g, s, e, t)
    ensures Below(Counts(g, s.ms), Counts(g, t.ms))
  {
    match e
    case Reads(x) =>
    case Writes(y) => PersistOne(g, s.ms, y, s.out[y]);
    case Appear(ns) => JoiningCounts(g, s.ms, ns);
  }

  lemma {:induction false} CountsGrowTo(g: Group, states: seq<Flight>, events: seq<Event>, t: nat, u: nat)
    requires Interleaving(g, states, events) && t <= u <= |events|
    ensures Below(Counts(g, states[t].ms), Counts(g, states[u].ms))
  {
    if t < u {
      CountsGrowTo(g, states, events, t, u - 1);
      SaneThroughout(g, states, events, u - 1);
      assert LeadsAt(g, states, events, u - 1);
      CountsGrow(g, states[u - 1], events[u - 1], states[u]);
    }
  }

  // ---------- exactly which runs end balanced ----------

  /** A write finds its site below what the fill still to come, `rest` arrivals included, gives it. */
  ghost predicate KeepsTarget(g: Group, s: Flight, e: Event, rest: nat) {
    e.Writes? ==>
      && |g.fds| > 0 && e.y in s.out && s.out[e.y] < |g.fds|
      && Counts(g, s.ms)[s.out[e.y]] < Fill(Counts(g, s.ms), |PendingSet(g, s.ms)| + rest)[s.out[e.y]]
  }

  lemma {:induction false} BoundIsFill(g: Group, ms: seq<NutanixMachine>, f: seq<nat>, rest: nat)
    requires BoundFor(g, ms, f, rest)
    ensures f == Fill(Counts(g, ms), |PendingSet(g, ms)| + rest)
  {
    FillIs(Counts(g, ms), f, |PendingSet(g, ms)| + rest);
  }

  lemma {:induction false} BumpStaysFill(c: seq<nat>, f: seq<nat>, i: nat)
    requires IsFill(c, f) && i < |c| && c[i] < f[i]
    ensures IsFill(Bump(c, i), f)
  {
  }

  lemma {:induction false} WriteStaysBound(g: Group, s: Flight, y: string, f: seq<nat>, rest: nat)
    requires Sane(g, s) && BoundFor(g, s.ms, f, rest) && y in s.out
    requires Counts(g, s.ms)[s.out[y]] < f[s.out[y]]
    ensures BoundFor(g, After(g, s, Writes(y)).ms, f, rest)
  {
    PersistOne(g, s.ms, y, s.out[y]);
    BumpStaysFill(Counts(g, s.ms), f, s.out[y]);
  }

  lemma {:induction false} EventStaysBound(g: Group, s: Flight, e: Event, t: Flight, f: seq<nat>, rest: nat)
    requires Sane(g, s) && Leads(g, s, e, t) && BoundFor(g, s.ms, f, Arriving(e) + rest)
    requires KeepsTarget(g, s, e, rest)
    ensures BoundFor(g, t.ms, f, rest)
  {
    match e
    case Reads(x) =>
    case Writes(y) =>
      BoundIsFill(g, s.ms, f, rest);
      WriteStaysBound(g, s, y, f, rest);
    case Appear(ns) => JoiningCounts(g, s.ms, ns);
  }

  ghost predicate AllKeepTarget(g: Group, states: seq<Flight>, events: seq<Event>, n: nat)
    requires n <= |events| < |states|
  {
    forall t :: 0 <= t < n ==> KeepsTarget(g, states[t], events[t], ToCome(events, t))
  }

  /** After `t` events the group is on its way to `f`. */
  ghost predicate BoundAfter(g: Group, states: seq<Flight>, events: seq<Event>, t: nat, f: seq<nat>)
    requires t <= |events| < |states|
  {
    BoundFor(g, states[t].ms, f, ToCome(events, t))
  }

  lemma {:induction false} BoundNext(g: Group, states: seq<Flight>, events: seq<Event>, t: nat, f: seq<nat>)
    requires Interleaving(g, states, events) && t < |events| && BoundAfter(g, states, events, t, f)
    requires KeepsTarget(g, states[t], events[t], ToCome(events, t))
    ensures BoundAfter(g, states, events, t + 1, f)
  {
    SaneThroughout(g, states, events, t);
    assert LeadsAt(g, states, events, t);
    EventStaysBound(g, states[t], events[t], states[t + 1], f, ToCome(events, t + 1));
  }

  lemma {:induction false} BoundUpTo(g: Group, states: seq<Flight>, events: seq<Event>, t: nat, f: seq<nat>)
    requires Interleaving(g, states, events) && t <= |events| && AllKeepTarget(g, states, events, t)
    requires BoundAfter(g, states, events, 0, f)
    ensures BoundAfter(g, states, events, t, f)
  {
    for u := 0 to t
      invariant BoundAfter(g, states, events, u, f)
    {
      BoundNext(g, states, events, u, f);
    }
  }

  lemma {:induction false} BelowKeepsTarget(g: Group, s: Flight, y: string, f: seq<nat>, rest: nat)
    requires Sane(g, s) && BoundFor(g, s.ms, f, rest) && y in s.out && Counts(g, s.ms)[s.out[y]] < f[s.out[y]]
    ensures KeepsTarget(g, s, Writes(y), rest)
  {
    BoundIsFill(g, s.ms, f, rest);
  }

  lemma {:induction false} WriteRaises(g: Group, s: Flight, y: string)
    requires Sane(g, s) && y in s.out
    ensures Sane(g, After(g, s, Writes(y)))
    ensures Counts(g, After(g, s, Writes(y)).ms)[s.out[y]] == Counts(g, s.ms)[s.out[y]] + 1
  {
    SaneStays(g, s, Writes(y), After(g, s, Writes(y)));
    PersistOne(g, s.ms, y, s.out[y]);
  }

  /** A write in a run that ends at `f` finds its site below `f`. */
  lemma {:induction false} WriteBelowEnd(g: Group, states: seq<Flight>, events: seq<Event>, t: nat, f: seq<nat>)
    requires Interleaving(g, states, events) && t < |events|
    requires Counts(g, states[|events|].ms) == f && BoundFor(g, states[t].ms, f, ToCome(events, t))
    ensures KeepsTarget(g, states[t], events[t], ToCome(events, t))
  {
    if events[t].Writes? {
      assert LeadsAt(g, states, events, t);
      SaneThroughout(g, states, events, t);
      WriteRaises(g, states[t], events[t].y);
      CountsGrowTo(g, states, events, t + 1, |events|);
      BelowKeepsTarget(g, states[t], events[t].y, f, ToCome(events, t));
    }
  }

  lemma {:induction false} EndKeepsTarget(g: Group, states: seq<Flight>, events: seq<Event>, t: nat, f: seq<nat>)
    requires Interleaving(g, states, events) && t <= |events|
    requires Counts(g, states[|events|].ms) == f && BoundFor(g, states[0].ms, f, ToCome(events, 0))
    ensures AllKeepTarget(g, states, events, t)
  {
    if t > 0 {
      EndKeepsTarget(g, states, events, t - 1, f);
      BoundUpTo(g, states, events, t - 1, f);
      WriteBelowEnd(g, states, events, t - 1, f);
    }
  }

  /** The greedy fill of the first counts by the machines pending then and those that appear later. */
  function Target(g: Group, ms: seq<NutanixMachine>, events: seq<Event>): seq<nat>
    requires |g.fds| > 0
  {
    Fill(Counts(g, ms), |PendingSet(g, ms)| + ToCome(events, 0))
  }

  /**
   For every interleaving of reads, writes and arrivals that places everybody, however stale the
   decisions: the sites end with the greedy fill if and only if every write found its site below what
   the fill still to come gives it.
   */
  lemma {:induction false} BalancedIff(g: Group, states: seq<Flight>, events: seq<Event>)
    requires Interleaving(g, states, events) && PendingSet(g, states[|events|].ms) == {}
    ensures Counts(g, states[|events|].ms) == Target(g, states[0].ms, events)
       <==> AllKeepTarget(g, states, events, |events|)
  {
    var f := BoundAtStart(g, states[0].ms, ToCome(events, 0));
    if Counts(g, states[|events|].ms) == f {
      EndKeepsTarget(g, states, events, |events|, f);
    } else if AllKeepTarget(g, states, events, |events|) {
      BoundUpTo(g, states, events, |events|, f);
      BoundAtEnd(g, states[|events|].ms, f);
    }
  }

  // ---------- reads that find the decisions under way current ----------

  /** Every decision under way is the one that the machine would take now. */
  ghost predicate Current(g: Group, s: Flight) {
    forall y :: y in s.out ==> |g.fds| > 0 && s.out[y] == PlacementIndex(ViewOf(g, y), s.ms)
  }

  ghost predicate ReadsCurrent(g: Group, states: seq<Flight>, events: seq<Event>)
    requires |events| < |states|
  {
    forall t :: 0 <= t < |events| && events[t].Reads? ==> Current(g, states[t])
  }

  /** Where the decisions under way come from: a listing, whose machines of `written` are labelled by now. */
  datatype Origin = Origin(ms: seq<NutanixMachine>, written: set<string>, arrived: seq<NutanixMachine>)

  ghost predicate ComesFrom(g: Group, s: Flight, o: Origin, f: seq<nat>, rest: nat) {
    && BoundFor(g, o.ms, f, rest + |o.arrived|)
    && o.written <= PendingSet(g, o.ms) && s.out.Keys <= PendingSet(g, o.ms) - o.written
    && s.ms == Round(g, o.ms, o.written) + o.arrived
    && (forall i :: 0 <= i < |o.arrived| ==> IsPending(g, o.arrived[i]))
    && s.out == Decisions(g, o.ms, s.out.Keys)
  }

  /** The site counts of a listing and of later arrivals are those of the listing. */
  lemma {:induction false} CountsOfFlight(g: Group, s: Flight, o: Origin, f: seq<nat>, rest: nat)
    requires Sane(g, s) && ComesFrom(g, s, o, f, rest)
    ensures WellFormed(g, Round(g, o.ms, o.written))
    ensures Counts(g, s.ms) == Counts(g, Round(g, o.ms, o.written))
  {
    RoundBounds(g, o.ms, o.written);
    JoiningCounts(g, Round(g, o.ms, o.written), o.arrived);
  }

  lemma {:induction false} RoundAndOne(g: Group, ms: seq<NutanixMachine>, who: set<string>, y: string)
    requires WellFormed(g, ms) && y !in who
    ensures Persist(g, Round(g, ms, who), map[y := PlacementIndex(ViewOf(g, y), ms)]) == Round(g, ms, who + {y})
  {
  }

  lemma {:induction false} PersistApart(g: Group, a: seq<NutanixMachine>, b: seq<NutanixMachine>, pick: map<string,
      nat>)
    requires forall k :: 0 <= k < |b| ==> b[k].name !in pick
    ensures Persist(g, a + b, pick) == Persist(g, a, pick) + b
  {
  }

  /** The names of a round are those of its listing, and no arrival has one of them. */
  lemma {:induction false} ArrivedApart(g: Group, s: Flight, o: Origin, f: seq<nat>, rest: nat, y: string)
    requires Sane(g, s) && ComesFrom(g, s, o, f, rest) && y in PendingSet(g, o.ms)
    ensures forall k :: 0 <= k < |o.arrived| ==> o.arrived[k].name != y
  {
    PendingSetMembers(g, o.ms, y);
    var i :| 0 <= i < |o.ms| && o.ms[i].name == y;
    assert s.ms[i] == Round(g, o.ms, o.written)[i];
    forall k | 0 <= k < |o.arrived| ensures o.arrived[k].name != y {
      assert s.ms[|o.ms| + k] == o.arrived[k];
    }
  }

  lemma {:induction false} FewerDecisions(g: Group, ms: seq<NutanixMachine>, who: set<string>, y: string)
    requires |g.fds| > 0
    ensures Decisions(g, ms, who) - {y} == Decisions(g, ms, who - {y})
  {
  }

  lemma {:induction false} WrittenComesFrom(g: Group, s: Flight, o: Origin, f: seq<nat>, rest: nat, y: string)
    requires Sane(g, s) && ComesFrom(g, s, o, f, rest) && y in s.out
    ensures ComesFrom(g, After(g, s, Writes(y)), o.(written := o.written + {y}), f, rest)
  {
    ArrivedApart(g, s, o, f, rest, y);
    PersistApart(g, Round(g, o.ms, o.written), o.arrived, map[y := s.out[y]]);
    RoundAndOne(g, o.ms, o.written, y);
    FewerDecisions(g, o.ms, s.out.Keys, y);
    assert (s.out - {y}).Keys == s.out.Keys - {y};
  }

  /** Together with those written before, such a decision stays within the fill. */
  lemma {:induction false} FlightWithinFill(g: Group, s: Flight, o: Origin, f: seq<nat>, rest: nat)
    requires Sane(g, s) && ComesFrom(g, s, o, f, rest)
    ensures Below(Counts(g, s.ms), f)
  {
    CountsOfFlight(g, s, o, f, rest);
    RoundWithinTarget(g, o.ms, o.written, f, rest + |o.arrived|);
  }

  lemma {:induction false} RoundWithinTarget(g: Group, ms: seq<NutanixMachine>, who: set<string>, f: seq<nat>,
      rest: nat)
    requires BoundFor(g, ms, f, rest) && who <= PendingSet(g, ms)
    ensures Below(Counts(g, Round(g, ms, who)), f)
  {
    RoundBounds(g, ms, who);
    FillGrows(Counts(g, ms), |PendingSet(g, ms)|, rest);
    BoundIsFill(g, ms, f, rest);
  }

  /** On the way to `f`, with every decision under way taken from one listing. */
  ghost predicate OnItsWay(g: Group, s: Flight, o: Origin, f: seq<nat>, rest: nat) {
    Sane(g, s) && BoundFor(g, s.ms, f, rest) && ComesFrom(g, s, o, f, rest)
  }

  lemma {:induction false} RaisedWithinFill(g: Group, c: seq<nat>, i: nat, t: Flight, p: Origin, f: seq<nat>, rest: nat)
    requires Sane(g, t) && ComesFrom(g, t, p, f, rest) && i < |c| == |g.fds| && Counts(g, t.ms)[i] == c[i] + 1
    ensures |f| == |c| && c[i] < f[i]
  {
    FlightWithinFill(g, t, p, f, rest);
  }

  /** A decision taken from one listing with all others under way keeps the target. */
  lemma {:induction false} CurrentWriteKeepsTarget(g: Group, s: Flight, o: Origin, f: seq<nat>, rest: nat, y: string)
    requires OnItsWay(g, s, o, f, rest) && y in s.out
    ensures KeepsTarget(g, s, Writes(y), rest)
  {
    WriteRaises(g, s, y);
    WrittenComesFrom(g, s, o, f, rest, y);
    RaisedWithinFill(g, Counts(g, s.ms), s.out[y], After(g, s, Writes(y)), o.(written := o.written + {y}), f, rest);
    BelowKeepsTarget(g, s, y, f, rest);
  }

  lemma {:induction false} FreshOrigin(g: Group, s: Flight, f: seq<nat>, rest: nat)
    requires Sane(g, s) && Current(g, s) && BoundFor(g, s.ms, f, rest)
    ensures ComesFrom(g, s, Origin(s.ms, {}, []), f, rest)
  {
    assert Round(g, s.ms, {}) == s.ms;
  }

  lemma {:induction false} ArrivedComesFrom(g: Group, s: Flight, o: Origin, f: seq<nat>, rest: nat,
      ns: seq<NutanixMachine>)
    requires ComesFrom(g, s, o, f, |ns| + rest) && forall i :: 0 <= i < |ns| ==> IsPending(g, ns[i])
    ensures ComesFrom(g, s.(ms := s.ms + ns), o.(arrived := o.arrived + ns), f, rest)
  {
    assert s.ms + ns == Round(g, o.ms, o.written) + (o.arrived + ns);
  }

  lemma {:induction false} NextOrigin(g: Group, s: Flight, e: Event, t: Flight, o: Origin, f: seq<nat>, rest: nat)
    returns (p: Origin)
    requires Leads(g, s, e, t) && OnItsWay(g, s, o, f, Arriving(e) + rest)
    requires KeepsTarget(g, s, e, rest) && (e.Reads? ==> Current(g, s))
    ensures OnItsWay(g, t, p, f, rest)
  {
    SaneStays(g, s, e, t);
    EventStaysBound(g, s, e, t, f, rest);
    p := NextComesFrom(g, s, e, t, o, f, rest);
  }

  lemma {:induction false} NextComesFrom(g: Group, s: Flight, e: Event, t: Flight, o: Origin, f: seq<nat>, rest: nat)
    returns (p: Origin)
    requires Leads(g, s, e, t) && Sane(g, s) && ComesFrom(g, s, o, f, Arriving(e) + rest)
    requires Sane(g, t) && BoundFor(g, t.ms, f, rest) && (e.Reads? ==> Current(g, s))
    ensures ComesFrom(g, t, p, f, rest)
  {
    match e
    case Reads(x) =>
      p := Origin(t.ms, {}, []);
      assert Current(g, t);
      FreshOrigin(g, t, f, rest);
    case Writes(y) =>
      p := o.(written := o.written + {y});
      WrittenComesFrom(g, s, o, f, rest, y);
    case Appear(ns) =>
      p := o.(arrived := o.arrived + ns);
      ArrivedComesFrom(g, s, o, f, rest, ns);
  }

  lemma {:induction false} EventKeepsTarget(g: Group, s: Flight, e: Event, t: Flight, o: Origin, f: seq<nat>, rest: nat)
    requires Leads(g, s, e, t) && OnItsWay(g, s, o, f, Arriving(e) + rest)
    ensures KeepsTarget(g, s, e, rest)
  {
    if e.Writes? { CurrentWriteKeepsTarget(g, s, o, f, rest, e.y); }
  }

  ghost predicate OnItsWayAfter(g: Group, states: seq<Flight>, events: seq<Event>, t: nat, o: Origin, f: seq<nat>)
    requires t <= |events| < |states|
  {
    OnItsWay(g, states[t], o, f, ToCome(events, t))
  }

  lemma {:induction false} OriginNext(
      g: Group, states: seq<Flight>, events: seq<Event>, t: nat, before: Origin, f: seq<nat>)
    returns (o: Origin)
    requires Interleaving(g, states, events) && ReadsCurrent(g, states, events) && t < |events|
    requires OnItsWayAfter(g, states, events, t, before, f)
    ensures OnItsWayAfter(g, states, events, t + 1, o, f)
  {
    assert LeadsAt(g, states, events, t);
    EventKeepsTarget(g, states[t], events[t], states[t + 1], before, f, ToCome(events, t + 1));
    o := NextOrigin(g, states[t], events[t], states[t + 1], before, f, ToCome(events, t + 1));
  }

  lemma {:induction false} OriginUpTo(g: Group, states: seq<Flight>, events: seq<Event>, t: nat, f: seq<nat>)
    returns (o: Origin)
    requires Interleaving(g, states, events) && ReadsCurrent(g, states, events) && t <= |events|
    requires BoundFor(g, states[0].ms, f, ToCome(events, 0))
    ensures OnItsWayAfter(g, states, events, t, o, f)
  {
    o := Origin(states[0].ms, {}, []);
    SaneThroughout(g, states, events, 0);
    FreshOrigin(g, states[0], f, ToCome(events, 0));
    for u := 0 to t
      invariant OnItsWayAfter(g, states, events, u, o, f)
    {
      o := OriginNext(g, states, events, u, o, f);
    }
  }

  lemma {:induction false} CurrentKeepsTarget(g: Group, states: seq<Flight>, events: seq<Event>, t: nat, f: seq<nat>)
    requires Interleaving(g, states, events) && ReadsCurrent(g, states, events) && t < |events|
    requires BoundFor(g, states[0].ms, f, ToCome(events, 0))
    ensures KeepsTarget(g, states[t], events[t], ToCome(events, t))
  {
    var o := OriginUpTo(g, states, events, t, f);
    assert LeadsAt(g, states, events, t);
    if events[t].Writes? { CurrentWriteKeepsTarget(g, states[t], o, f, ToCome(events, t), events[t].y); }
  }

  /**
   Confluence without rounds: reads and writes may overlap in any way, as long as every read finds the
   decisions under way to be those that their machines would take now; machines may appear at any time.
   */
  lemma {:induction false} InterleavingsConfluent(g: Group, states: seq<Flight>, events: seq<Event>)
    requires Interleaving(g, states, events) && ReadsCurrent(g, states, events)
    requires PendingSet(g, states[|events|].ms) == {}
    ensures Counts(g, states[|events|].ms) == Target(g, states[0].ms, events)
  {
    var f := BoundAtStart(g, states[0].ms, ToCome(events, 0));
    forall t | 0 <= t < |events| ensures KeepsTarget(g, states[t], events[t], ToCome(events, t)) {
      CurrentKeepsTarget(g, states, events, t, f);
    }
    BalancedIff(g, states, events);
  }

  // ---------- rounds are a special case ----------

  ghost predicate CurrentRun(g: Group, states: seq<Flight>, events: seq<Event>) {
    Interleaving(g, states, events) && ReadsCurrent(g, states, events)
  }

  /** A run from `first` to `last`. */
  ghost predicate Between(g: Group, states: seq<Flight>, events: seq<Event>, first: Flight, last: Flight) {
    CurrentRun(g, states, events) && states[0] == first && states[|events|] == last
  }

  lemma {:induction false} ToComeNext(events: seq<Event>, e: Event, t: nat)
    requires t <= |events|
    ensures ToCome(events + [e], t) == ToCome(events, t) + Arriving(e)
    decreases |events| - t
  {
    if t < |events| {
      ToComeNext(events, e, t + 1);
    } else {
      assert ToCome(events + [e], t + 1) == 0;
    }
  }

  lemma {:induction false} Extend(g: Group, states: seq<Flight>, events: seq<Event>, first: Flight, last: Flight,
      e: Event)
    returns (longer: seq<Flight>, more: seq<Event>)
    requires Between(g, states, events, first, last) && |g.fds| > 0
    requires Possible(g, last, e) && (e.Reads? ==> Current(g, last))
    ensures Between(g, longer, more, first, After(g, last, e)) && ToCome(more, 0) == ToCome(events, 0) + Arriving(e)
  {
    longer, more := states + [After(g, last, e)], events + [e];
    ToComeNext(events, e, 0);
    forall t | 0 <= t < |more| ensures LeadsAt(g, longer, more, t) {
      if t < |events| { assert LeadsAt(g, states, events, t); }
    }
  }

  lemma {:induction false} ReadsOne(g: Group, states: seq<Flight>, events: seq<Event>, first: Flight,
                                    ms: seq<NutanixMachine>, done: set<string>, x: string)
    returns (longer: seq<Flight>, more: seq<Event>)
    requires |g.fds| > 0 && x !in done && x in PendingSet(g, ms)
    requires Between(g, states, events, first, Flight(ms, Decisions(g, ms, done)))
    ensures Between(g, longer, more, first, Flight(ms, Decisions(g, ms, done + {x})))
    ensures ToCome(more, 0) == ToCome(events, 0)
  {
    longer, more := Extend(g, states, events, first, Flight(ms, Decisions(g, ms, done)), Reads(x));
    assert Decisions(g, ms, done)[x := PlacementIndex(ViewOf(g, x), ms)] == Decisions(g, ms, done + {x});
  }

  /** All of `todo` read one listing, one after another. */
  lemma {:induction false} ReadsAll(g: Group, states: seq<Flight>, events: seq<Event>, first: Flight,
                                    ms: seq<NutanixMachine>, done: set<string>, todo: set<string>)
    returns (longer: seq<Flight>, more: seq<Event>)
    requires |g.fds| > 0 && done !! todo && todo <= PendingSet(g, ms)
    requires Between(g, states, events, first, Flight(ms, Decisions(g, ms, done)))
    ensures Between(g, longer, more, first, Flight(ms, Decisions(g, ms, done + todo)))
    ensures ToCome(more, 0) == ToCome(events, 0)
    decreases todo
  {
    if todo == {} {
      longer, more := states, events;
      assert done + todo == done;
    } else {
      var x :| x in todo;
      longer, more := ReadsOne(g, states, events, first, ms, done, x);
      longer, more := ReadsAll(g, longer, more, first, ms, done + {x}, todo - {x});
      assert (done + {x}) + (todo - {x}) == done + todo;
    }
  }

  /** Then each persists its decision. */
  lemma {:induction false} WritesAll(g: Group, states: seq<Flight>, events: seq<Event>, first: Flight,
                                     ms: seq<NutanixMachine>, who: set<string>, left: set<string>)
    returns (longer: seq<Flight>, more: seq<Event>)
    requires WellFormed(g, ms) && left <= who <= PendingSet(g, ms)
    requires Between(g, states, events, first, Flight(Round(g, ms, who - left), Decisions(g, ms, left)))
    ensures Between(g, longer, more, first, Flight(Round(g, ms, who), map[]))
    ensures ToCome(more, 0) == ToCome(events, 0)
    decreases left
  {
    if left == {} {
      longer, more := states, events;
      assert who - left == who && Decisions(g, ms, left) == map[];
    } else {
      var y :| y in left;
      longer, more :=
        Extend(g, states, events, first, Flight(Round(g, ms, who - left), Decisions(g, ms, left)), Writes(y));
      RoundAndOne(g, ms, who - left, y);
      FewerDecisions(g, ms, left, y);
      assert (who - left) + {y} == who - (left - {y});
      longer, more := WritesAll(g, longer, more, first, ms, who, left - {y});
    }
  }

  lemma {:induction false} RoundAsEvents(g: Group, states: seq<Flight>, events: seq<Event>, first: Flight,
                                         ms: seq<NutanixMachine>, who: set<string>)
    returns (longer: seq<Flight>, more: seq<Event>)
    requires WellFormed(g, ms) && who <= PendingSet(g, ms) && Between(g, states, events, first, Flight(ms, map[]))
    ensures Between(g, longer, more, first, Flight(Round(g, ms, who), map[])) && ToCome(more, 0) == ToCome(events, 0)
  {
    assert Decisions(g, ms, {}) == map[];
    longer, more := ReadsAll(g, states, events, first, ms, {}, who);
    assert {} + who == who && who - who == {};
    assert Round(g, ms, {}) == ms;
    longer, more := WritesAll(g, longer, more, first, ms, who, who);
  }

  lemma {:induction false} StepAsEvents(g: Group, states: seq<Flight>, events: seq<Event>, first: Flight,
                                        ms: seq<NutanixMachine>, step: Step, later: seq<NutanixMachine>)
    returns (longer: seq<Flight>, more: seq<Event>)
    requires WellFormed(g, ms) && StepsTo(g, ms, step, later) && Between(g, states, events, first, Flight(ms, map[]))
    ensures Between(g, longer, more, first, Flight(later, map[]))
    ensures ToCome(more, 0) == ToCome(events, 0) + Newcomers(step)
  {
    match step
    case Decides(who) => longer, more := RoundAsEvents(g, states, events, first, ms, who);
    case Joins(ns) => longer, more := Extend(g, states, events, first, Flight(ms, map[]), Appear(ns));
  }

  lemma {:induction false} OpenRunWellFormed(g: Group, lists: seq<seq<NutanixMachine>>, steps: seq<Step>, t: nat)
    requires OpenRun(g, lists, steps) && t <= |steps|
    ensures WellFormed(g, lists[t])
  {
    if t > 0 {
      OpenRunWellFormed(g, lists, steps, t - 1);
      assert StepAt(g, lists, steps, t - 1);
      if steps[t - 1].Decides? {
        PersistKeepsWellFormed(g, lists[t - 1], Decisions(g, lists[t - 1], steps[t - 1].who));
      }
    }
  }

  /** Every run of rounds and arrivals is an interleaving whose reads find all decisions under way current. */
  lemma {:induction false} RoundsAreInterleavings(g: Group, lists: seq<seq<NutanixMachine>>, steps: seq<Step>, t: nat)
    returns (states: seq<Flight>, events: seq<Event>)
    requires OpenRun(g, lists, steps) && t <= |steps|
    ensures Between(g, states, events, Flight(lists[0], map[]), Flight(lists[t], map[]))
    ensures ToCome(events, 0) == Joined(steps, t)
  {
    if t == 0 {
      states, events := [Flight(lists[0], map[])], [];
    } else {
      states, events := RoundsAreInterleavings(g, lists, steps, t - 1);
      OpenRunWellFormed(g, lists, steps, t - 1);
      assert StepAt(g, lists, steps, t - 1);
      states, events := StepAsEvents(g, states, events, Flight(lists[0], map[]), lists[t - 1], steps[t - 1], lists[t]);
    }
  }
}
