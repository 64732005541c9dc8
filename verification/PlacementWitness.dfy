/** Why rounds: placement is not balanced under every interleaving of reads and label writes. */
module PlacementWitness {
  import opened Wrappers
  import opened Sorting
  import opened GreedyBalance
  import opened MetroPlacement
  import opened PlacementRounds

  const METRO := Group(["s0", "s1"], "", map[])

  function Unplaced(name: string): NutanixMachine {
    NutanixMachine(name, false, None)
  }

  const FRESH := [Unplaced("a"), Unplaced("b"), Unplaced("c"), Unplaced("d")]

  function On(name: string, site: string): NutanixMachine {
    NutanixMachine(name, false, Some(site))
  }

  lemma CountSnoc(v: View, ms: seq<NutanixMachine>, m: NutanixMachine, q: Query)
    ensures Count(v, ms + [m], q) == Count(v, ms, q) + if Hit(v, m, q) then 1 else 0
  {
    assert (ms + [m])[..|ms|] == ms;
  }

  lemma CountFour(v: View, a: NutanixMachine, b: NutanixMachine, c: NutanixMachine, d: NutanixMachine, q: Query)
    ensures Count(v, [a, b, c, d], q)
         == (if Hit(v, a, q) then 1 else 0) + (if Hit(v, b, q) then 1 else 0)
          + (if Hit(v, c, q) then 1 else 0) + (if Hit(v, d, q) then 1 else 0)
  {
    CountSnoc(v, [], a, q);
    CountSnoc(v, [a], b, q);
    CountSnoc(v, [a, b], c, q);
    CountSnoc(v, [a, b, c], d, q);
    assert [] + [a] == [a] && [a] + [b] == [a, b] && [a, b] + [c] == [a, b, c];
    assert [a, b, c] + [d] == [a, b, c, d];
  }

  /** The two site counts of four machines none of which is deleting. */
  lemma SitesOfFour(me: string, a: NutanixMachine, b: NutanixMachine, c: NutanixMachine, d: NutanixMachine)
    requires forall m :: m in {a, b, c, d} ==> !m.deleting && m.nativeFd in {None, Some("s0"), Some("s1")}
    ensures var v := ViewOf(METRO, me);
            SiteCounts(v, [a, b, c, d]) ==
              [(if a.nativeFd == Some("s0") then 1 else 0) + (if b.nativeFd == Some("s0") then 1 else 0)
               + (if c.nativeFd == Some("s0") then 1 else 0) + (if d.nativeFd == Some("s0") then 1 else 0),
               (if a.nativeFd == Some("s1") then 1 else 0) + (if b.nativeFd == Some("s1") then 1 else 0)
               + (if c.nativeFd == Some("s1") then 1 else 0) + (if d.nativeFd == Some("s1") then 1 else 0)]
  {
    var v := ViewOf(METRO, me);
    Sites(a); Sites(b); Sites(c); Sites(d);
    CountFour(v, a, b, c, d, AtSite(0));
    CountFour(v, a, b, c, d, AtSite(1));
  }

  lemma Sites(m: NutanixMachine)
    requires m.nativeFd in {None, Some("s0"), Some("s1")}
    ensures SiteOf(METRO.fds, m) == if m.nativeFd == Some("s0") then Some(0) else if m.nativeFd == Some("s1")
        then Some(1) else None
  {
    assert METRO.fds[0] == "s0" && METRO.fds[1] == "s1";
    assert FdIndexTo(METRO.fds, 1, "s0") == Some(0);
  }

  lemma FillStep(c: seq<nat>, k: nat, x: nat, y: nat)
    requires |c| == 2 && Fill(c, k) == [x, y]
    ensures Slot(c, k) == if y < x then 1 else 0
    ensures Fill(c, k + 1) == if y < x then [x, y + 1] else [x + 1, y]
  {
    assert LeastTo([x, y], 1) == 0;
  }

  lemma FirstSlots()
    ensures Slot([0, 0], 0) == 0 && Slot([0, 0], 1) == 1 && Slot([0, 0], 2) == 0 && Slot([0, 0], 3) == 1
    ensures Fill([0, 0], 4) == [2, 2]
    ensures Slot([1, 0], 0) == 1
  {
    FillStep([0, 0], 0, 0, 0);
    FillStep([0, 0], 1, 1, 0);
    FillStep([0, 0], 2, 1, 1);
    FillStep([0, 0], 3, 2, 1);
    FillStep([1, 0], 0, 1, 0);
  }

  lemma FreshDecision(me: string, rank: nat)
    requires (me, rank) in {("b", 1), ("c", 2), ("d", 3)}
    ensures PlacementIndex(ViewOf(METRO, me), FRESH) == Slot([0, 0], rank)
  {
    var a, b, c, d := Unplaced("a"), Unplaced("b"), Unplaced("c"), Unplaced("d");
    SitesOfFour(me, a, b, c, d);
    CountFour(ViewOf(METRO, me), a, b, c, d, PendingBefore);
  }

  lemma LateDecision()
    ensures PlacementIndex(ViewOf(METRO, "a"), [Unplaced("a"), Unplaced("b"), On("c", "s0"), Unplaced("d")])
        == Slot([1, 0], 0)
  {
    var a, b, c, d := Unplaced("a"), Unplaced("b"), On("c", "s0"), Unplaced("d");
    SitesOfFour("a", a, b, c, d);
    CountFour(ViewOf(METRO, "a"), a, b, c, d, PendingBefore);
  }

  lemma FreshTarget()
    ensures Fill(Counts(METRO, FRESH), |PendingSet(METRO, FRESH)|) == Fill([0, 0], 4)
  {
    var a, b, c, d := Unplaced("a"), Unplaced("b"), Unplaced("c"), Unplaced("d");
    SitesOfFour("", a, b, c, d);
    CountFour(Overview(METRO), a, b, c, d, Pending);
    CountPending(METRO, FRESH);
  }

  /**
   `b` and `d` decide on the first listing but are slow to persist; `c` persists its decision from
   the same listing; then `a` reads. Three machines end on the second site and one on the first,
   where any schedule of rounds would have left two on each.
   */
  lemma StaleReadUnbalances()
    ensures PlacementIndex(ViewOf(METRO, "b"), FRESH) == 1
    ensures PlacementIndex(ViewOf(METRO, "c"), FRESH) == 0
    ensures PlacementIndex(ViewOf(METRO, "d"), FRESH) == 1
    ensures PlacementIndex(ViewOf(METRO, "a"), [Unplaced("a"), Unplaced("b"), On("c", "s0"), Unplaced("d")]) == 1
    ensures Counts(METRO, [On("a", "s1"), On("b", "s1"), On("c", "s0"), On("d", "s1")]) == [1, 3]
    ensures Fill(Counts(METRO, FRESH), |PendingSet(METRO, FRESH)|) == [2, 2]
  {
    FirstSlots();
    FreshDecision("b", 1);
    FreshDecision("c", 2);
    FreshDecision("d", 3);
    LateDecision();
    SitesOfFour("", On("a", "s1"), On("b", "s1"), On("c", "s0"), On("d", "s1"));
    FreshTarget();
  }
}
