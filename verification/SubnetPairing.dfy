/**
 The subnets of a virtual HA domain's two failure domains, paired by their L2 network, and the
 network mappings of a recovery plan.

 The pairing is greedy: each subnet of the first site takes the first free subnet of the second one
 with the same key. That loses nothing: no one-to-one matching of equal keys has more pairs.
 */
module SubnetPairing {
  import opened Wrappers
  import opened Decimal

  /** A subnet as Prism describes it; `layer` is the name of its type. */
  datatype Subnet = Subnet(layer: Option<string>, networkId: Option<int>, ipPrefix: Option<string>)

  /** A subnet that a failure domain lists: the name or UUID it goes by, and what it resolves to. */
  datatype Listed = Listed(name: string, subnet: Result<Subnet>)

  // ---------- network keys ----------

  const UNKNOWN := "UNKNOWN"

  function Layer(s: Subnet): string {
    if s.layer.Some? then s.layer.value else UNKNOWN
  }

  function Vlan(s: Subnet): string {
    if s.networkId.Some? then Itoa(s.networkId.value) else ""
  }

  function Cidr(s: Subnet): string {
    if s.ipPrefix.Some? then s.ipPrefix.value else ""
  }

  function NetworkKey(s: Subnet): string {
    Layer(s) + "|" + Vlan(s) + "|" + Cidr(s)
  }

  ghost predicate NoBar(s: string) {
    forall i :: 0 <= i < |s| ==> s[i] != '|'
  }

  lemma SplitAtBar(a: string, x: string, b: string, y: string)
    requires NoBar(a) && NoBar(b) && a + "|" + x == b + "|" + y
    ensures a == b && x == y
  {
    var s, t := a + "|" + x, b + "|" + y;
    assert forall i :: 0 <= i < |a| ==> s[i] == a[i] != '|';
    assert forall i :: 0 <= i < |b| ==> t[i] == b[i] != '|';
    assert s[|a|] == '|' && t[|b|] == '|';
    assert a == s[..|a|] && b == t[..|b|] && x == s[|a| + 1..] && y == t[|b| + 1..];
  }

  /** A key stands for layer, VLAN and CIDR: subnets share it exactly when they agree on all three. */
  lemma SameKeyIff(s: Subnet, t: Subnet)
    requires NoBar(Layer(s)) && NoBar(Layer(t))
    ensures NetworkKey(s) == NetworkKey(t) <==> Layer(s) == Layer(t) && s.networkId == t.networkId && Cidr(s) == Cidr(t)
  {
    if NetworkKey(s) == NetworkKey(t) {
      VlanHasNoBar(s);
      VlanHasNoBar(t);
      KeySplits(s);
      KeySplits(t);
      SplitAtBar(Layer(s), Vlan(s) + "|" + Cidr(s), Layer(t), Vlan(t) + "|" + Cidr(t));
      SplitAtBar(Vlan(s), Cidr(s), Vlan(t), Cidr(t));
      if s.networkId.Some? && t.networkId.Some? {
        ItoaInjective(s.networkId.value, t.networkId.value);
      }
    }
  }

  /** The key as text: the three parts between bars, with a stand-in for a missing layer only. */
  lemma KeyText(layer: string, id: int, cidr: string)
    ensures NetworkKey(Subnet(Some(layer), Some(id), Some(cidr))) == layer + "|" + Itoa(id) + "|" + cidr
    ensures NetworkKey(Subnet(None, None, None)) == "UNKNOWN||"
    ensures NetworkKey(Subnet(Some(layer), None, None)) == layer + "||"
  {
  }

  lemma VlanHasNoBar(s: Subnet)
    ensures NoBar(Vlan(s)) && (Vlan(s) == "" <==> s.networkId.None?)
  {
    if s.networkId.Some? { ItoaCharacters(s.networkId.value); }
  }

  lemma KeySplits(s: Subnet)
    ensures NetworkKey(s) == Layer(s) + "|" + (Vlan(s) + "|" + Cidr(s))
  {
  }

  function Keys(listed: seq<Listed>): Result<seq<string>> {
    if listed == [] then Ok([])
    else
      var front := Keys(listed[..|listed| - 1]);
      var last := listed[|listed| - 1].subnet;
      if front.Err? || last.Err? then Err else Ok(front.value + [NetworkKey(last.value)])
  }

  /** A failure domain: whether its Prism element can be looked up, and its subnets. */
  datatype FailureDomain = FailureDomain(clusterFound: bool, subnets: seq<Listed>)

  function KeysOfDomain(fd: FailureDomain): Result<seq<string>> {
    if fd.clusterFound then Keys(fd.subnets) else Err
  }

  // ---------- the greedy matching as a function ----------

  /** The first free subnet among the first `n` with the key. */
  function FirstFree(keys: seq<string>, used: set<nat>, key: string, n: nat): (j: Option<nat>)
    requires n <= |keys|
    ensures j.Some? ==> j.value < n && j.value !in used && keys[j.value] == key
    ensures j.Some? ==> forall i :: 0 <= i < j.value && i !in used ==> keys[i] != key
    ensures j.None? ==> forall i :: 0 <= i < n && i !in used ==> keys[i] != key
  {
    if n == 0 then None
    else
      var front := FirstFree(keys, used, key, n - 1);
      if front.Some? then front else if n - 1 !in used && keys[n - 1] == key then Some(n - 1) else None
  }

  type Pair = (nat, nat)

  function Seconds(pairs: seq<Pair>): set<nat> {
    if pairs == [] then {} else Seconds(pairs[..|pairs| - 1]) + {pairs[|pairs| - 1].1}
  }

  function Firsts(pairs: seq<Pair>): set<nat> {
    if pairs == [] then {} else Firsts(pairs[..|pairs| - 1]) + {pairs[|pairs| - 1].0}
  }

  /** One more pair if the subnet `i` of the first site finds a free one with its key. */
  function Extended(keys0: seq<string>, keys1: seq<string>, pairs: seq<Pair>, i: nat): (r: seq<Pair>)
    requires i < |keys0|
  {
    match FirstFree(keys1, Seconds(pairs), keys0[i], |keys1|)
    case None => pairs
    case Some(j) => pairs + [(i, j)]
  }

  /** The pairs that the first `n` subnets of the first site end up in. */
  function Pairs(keys0: seq<string>, keys1: seq<string>, n: nat): (r: seq<Pair>)
    requires n <= |keys0|
  {
    if n == 0 then [] else Extended(keys0, keys1, Pairs(keys0, keys1, n - 1), n - 1)
  }

  /** One-to-one and key-preserving. */
  ghost predicate IsMatching(keys0: seq<string>, keys1: seq<string>, pairs: seq<Pair>) {
    && (forall k :: 0 <= k < |pairs| ==>
          pairs[k].0 < |keys0| && pairs[k].1 < |keys1| && keys0[pairs[k].0] == keys1[pairs[k].1])
    && (forall k, l :: 0 <= k < l < |pairs| ==> pairs[k].0 != pairs[l].0 && pairs[k].1 != pairs[l].1)
  }

  lemma {:induction false} SecondsMembers(pairs: seq<Pair>, j: nat)
    ensures j in Seconds(pairs) <==> exists k :: 0 <= k < |pairs| && pairs[k].1 == j
  {
    if pairs != [] {
      SecondsMembers(pairs[..|pairs| - 1], j);
    }
  }

  lemma {:induction false} FirstsMembers(pairs: seq<Pair>, i: nat)
    ensures i in Firsts(pairs) <==> exists k :: 0 <= k < |pairs| && pairs[k].0 == i
  {
    if pairs != [] {
      FirstsMembers(pairs[..|pairs| - 1], i);
    }
  }

  ghost predicate FirstsBelow(pairs: seq<Pair>, n: nat) {
    forall k :: 0 <= k < |pairs| ==> pairs[k].0 < n
  }

  lemma {:induction false} MatchingNext(keys0: seq<string>, keys1: seq<string>, pairs: seq<Pair>, i: nat, j: nat)
    requires IsMatching(keys0, keys1, pairs) && FirstsBelow(pairs, i) && i < |keys0| && j < |keys1|
    requires keys0[i] == keys1[j] && j !in Seconds(pairs)
    ensures IsMatching(keys0, keys1, pairs + [(i, j)]) && FirstsBelow(pairs + [(i, j)], i + 1)
  {
    SecondsMembers(pairs, j);
  }

  lemma {:induction false} ExtendedMatches(keys0: seq<string>, keys1: seq<string>, pairs: seq<Pair>, i: nat)
    requires IsMatching(keys0, keys1, pairs) && FirstsBelow(pairs, i) && i < |keys0|
    ensures IsMatching(keys0, keys1, Extended(keys0, keys1, pairs, i))
        && FirstsBelow(Extended(keys0, keys1, pairs, i), i + 1)
  {
    match FirstFree(keys1, Seconds(pairs), keys0[i], |keys1|)
    case None =>
    case Some(j) => MatchingNext(keys0, keys1, pairs, i, j);
  }

  lemma {:induction false} PairsMatch(keys0: seq<string>, keys1: seq<string>, n: nat)
    requires n <= |keys0|
    ensures Greedy(keys0, keys1, Pairs(keys0, keys1, n), n)
  {
    if n > 0 {
      PairsMatch(keys0, keys1, n - 1);
      PairsMatchNext(keys0, keys1, n - 1);
    }
  }

  ghost predicate Greedy(keys0: seq<string>, keys1: seq<string>, pairs: seq<Pair>, n: nat) {
    IsMatching(keys0, keys1, pairs) && FirstsBelow(pairs, n)
  }

  lemma {:induction false} PairsMatchNext(keys0: seq<string>, keys1: seq<string>, n: nat)
    requires n < |keys0| && Greedy(keys0, keys1, Pairs(keys0, keys1, n), n)
    ensures Greedy(keys0, keys1, Pairs(keys0, keys1, n + 1), n + 1)
  {
    ExtendedMatches(keys0, keys1, Pairs(keys0, keys1, n), n);
  }

  /** The pairs follow the first site's order. */
  ghost predicate FirstsIncrease(pairs: seq<Pair>) {
    forall k, l :: 0 <= k < l < |pairs| ==> pairs[k].0 < pairs[l].0
  }

  /** Those of one key follow the second site's order too. */
  ghost predicate KeysInOrder(keys1: seq<string>, pairs: seq<Pair>) {
    forall k, l :: 0 <= k < l < |pairs| && SameKey(keys1, pairs[k].1, pairs[l].1) ==> pairs[k].1 < pairs[l].1
  }

  predicate SameKey(keys: seq<string>, i: nat, j: nat) {
    i < |keys| && j < |keys| && keys[i] == keys[j]
  }

  /** Before a used subnet, no subnet of its key is free. */
  ghost predicate NoGaps(keys1: seq<string>, pairs: seq<Pair>) {
    forall j, i: nat :: j in Seconds(pairs) && i < j < |keys1| && keys1[i] == keys1[j] ==> i in Seconds(pairs)
  }

  lemma {:induction false} SecondsNext(pairs: seq<Pair>, p: Pair)
    ensures Seconds(pairs + [p]) == Seconds(pairs) + {p.1}
  {
    assert (pairs + [p])[..|pairs|] == pairs;
  }

  lemma {:induction false} NextInOrder(keys1: seq<string>, pairs: seq<Pair>, i: nat, j: nat)
    requires KeysInOrder(keys1, pairs) && NoGaps(keys1, pairs) && j < |keys1| && j !in Seconds(pairs)
    requires forall l: nat :: l < j && keys1[l] == keys1[j] ==> l in Seconds(pairs)
    ensures KeysInOrder(keys1, pairs + [(i, j)]) && NoGaps(keys1, pairs + [(i, j)])
  {
    SecondsNext(pairs, (i, j));
    forall k | 0 <= k < |pairs| && pairs[k].1 < |keys1| && keys1[pairs[k].1] == keys1[j] ensures pairs[k].1 < j {
      SecondsMembers(pairs, pairs[k].1);
    }
  }

  lemma {:induction false} ExtendedInOrder(keys0: seq<string>, keys1: seq<string>, pairs: seq<Pair>, i: nat)
    requires FirstsBelow(pairs, i) && i < |keys0|
    requires FirstsIncrease(pairs) && KeysInOrder(keys1, pairs) && NoGaps(keys1, pairs)
    ensures FirstsIncrease(Extended(keys0, keys1, pairs, i))
    ensures KeysInOrder(keys1, Extended(keys0, keys1, pairs, i)) && NoGaps(keys1, Extended(keys0, keys1, pairs, i))
  {
    match FirstFree(keys1, Seconds(pairs), keys0[i], |keys1|)
    case None =>
    case Some(j) => NextInOrder(keys1, pairs, i, j);
  }

  ghost predicate OrderedAfter(keys0: seq<string>, keys1: seq<string>, n: nat)
    requires n <= |keys0|
  {
    var pairs := Pairs(keys0, keys1, n);
    FirstsBelow(pairs, n) && FirstsIncrease(pairs) && KeysInOrder(keys1, pairs) && NoGaps(keys1, pairs)
  }

  lemma {:induction false} OrderedNext(keys0: seq<string>, keys1: seq<string>, n: nat)
    requires n < |keys0| && OrderedAfter(keys0, keys1, n)
    ensures OrderedAfter(keys0, keys1, n + 1)
  {
    PairsMatch(keys0, keys1, n + 1);
    ExtendedInOrder(keys0, keys1, Pairs(keys0, keys1, n), n);
  }

  /** The greedy pairs join the first of each key with the first, the second with the second, and so on. */
  lemma {:induction false} PairsInOrder(keys0: seq<string>, keys1: seq<string>)
    ensures FirstsIncrease(Pairs(keys0, keys1, |keys0|))
    ensures KeysInOrder(keys1, Pairs(keys0, keys1, |keys0|)) && NoGaps(keys1, Pairs(keys0, keys1, |keys0|))
  {
    for n := 0 to |keys0|
      invariant OrderedAfter(keys0, keys1, n)
    {
      OrderedNext(keys0, keys1, n);
    }
  }

  // ---------- counting ----------

  /** How many of the first `n` subnets have the key and are not used. */
  function Free(keys: seq<string>, used: set<nat>, key: string, n: nat): nat
    requires n <= |keys|
  {
    if n == 0 then 0
    else Free(keys, used, key, n - 1) + if n - 1 !in used && keys[n - 1] == key then 1 else 0
  }

  lemma {:induction false} AllFree(keys: seq<string>, key: string, n: nat)
    requires n <= |keys|
    ensures Free(keys, {}, key, n) == multiset(keys[..n])[key]
  {
    if n > 0 {
      AllFree(keys, key, n - 1);
      assert keys[..n] == keys[..n - 1] + [keys[n - 1]];
    }
  }

  lemma {:induction false} UseOne(keys: seq<string>, used: set<nat>, j: nat, key: string, n: nat)
    requires n <= |keys| && j < |keys| && j !in used
    ensures Free(keys, used, key, n) == Free(keys, used + {j}, key, n) + if j < n && keys[j] == key then 1 else 0
  {
    if n > 0 {
      UseOne(keys, used, j, key, n - 1);
    }
  }

  lemma {:induction false} FreeIff(keys: seq<string>, used: set<nat>, key: string, n: nat)
    requires n <= |keys|
    ensures Free(keys, used, key, n) > 0 <==> FirstFree(keys, used, key, n).Some?
  {
    if n > 0 {
      FreeIff(keys, used, key, n - 1);
    }
  }

  /** The keys of some pairs, with multiplicity. */
  function KeysOf(keys0: seq<string>, pairs: seq<Pair>): (m: multiset<string>)
    requires forall k :: 0 <= k < |pairs| ==> pairs[k].0 < |keys0|
    ensures |m| == |pairs|
  {
    if pairs == [] then multiset{} else KeysOf(keys0, pairs[..|pairs| - 1]) + multiset{keys0[pairs[|pairs| - 1].0]}
  }

  /** How many of the pairs have the key. */
  function KeyCount(keys0: seq<string>, pairs: seq<Pair>, key: string): nat
    requires forall k :: 0 <= k < |pairs| ==> pairs[k].0 < |keys0|
  {
    if pairs == [] then 0
    else KeyCount(keys0, pairs[..|pairs| - 1], key) + if keys0[pairs[|pairs| - 1].0] == key then 1 else 0
  }

  lemma {:induction false} KeysOfCounts(keys0: seq<string>, pairs: seq<Pair>, key: string)
    requires forall k :: 0 <= k < |pairs| ==> pairs[k].0 < |keys0|
    ensures KeysOf(keys0, pairs)[key] == KeyCount(keys0, pairs, key)
  {
    if pairs != [] {
      KeysOfCounts(keys0, pairs[..|pairs| - 1], key);
    }
  }

  /** What a matching uses of each site, and what it leaves free, make up the site. */
  lemma {:induction false} MatchingUses(keys0: seq<string>, keys1: seq<string>, pairs: seq<Pair>, key: string)
    requires IsMatching(keys0, keys1, pairs)
    ensures HowOften(keys0, key, |keys0|) == KeyCount(keys0, pairs, key) + Free(keys0, Firsts(pairs), key, |keys0|)
    ensures HowOften(keys1, key, |keys1|) == KeyCount(keys0, pairs, key) + Free(keys1, Seconds(pairs), key, |keys1|)
  {
    if pairs != [] {
      var front, last := pairs[..|pairs| - 1], pairs[|pairs| - 1];
      MatchingUses(keys0, keys1, front, key);
      FirstsMembers(front, last.0);
      SecondsMembers(front, last.1);
      UseOne(keys0, Firsts(front), last.0, key, |keys0|);
      UseOne(keys1, Seconds(front), last.1, key, |keys1|);
    }
  }

  lemma {:induction false} KeyCountNext(keys0: seq<string>, pairs: seq<Pair>, p: Pair, key: string)
    requires (forall k :: 0 <= k < |pairs| ==> pairs[k].0 < |keys0|) && p.0 < |keys0|
    ensures KeyCount(keys0, pairs + [p], key) == KeyCount(keys0, pairs, key) + if keys0[p.0] == key then 1 else 0
  {
    assert (pairs + [p])[..|pairs|] == pairs;
  }

  function Smaller(a: nat, b: nat): nat {
    if a < b then a else b
  }

  /** How often the pairs of the first `n` subnets carry a key. */
  function Carried(keys0: seq<string>, keys1: seq<string>, n: nat, key: string): nat
    requires n <= |keys0|
  {
    PairsMatch(keys0, keys1, n);
    KeyCount(keys0, Pairs(keys0, keys1, n), key)
  }

  function Occurrences(keys: seq<string>, key: string): nat {
    multiset(keys)[key]
  }

  /** How many of the first `n` subnets have the key. */
  function HowOften(keys: seq<string>, key: string, n: nat): nat
    requires n <= |keys|
  {
    Free(keys, {}, key, n)
  }

  /** The smaller of the multiplicities on the two sites, of the first one's first `n` subnets. */
  function Common(keys0: seq<string>, keys1: seq<string>, n: nat, key: string): nat
    requires n <= |keys0|
  {
    Smaller(HowOften(keys0, key, n), HowOften(keys1, key, |keys1|))
  }

  lemma OccurrencesNext(keys: seq<string>, n: nat, key: string)
    requires n < |keys|
    ensures Occurrences(keys[..n + 1], key) == Occurrences(keys[..n], key) + if keys[n] == key then 1 else 0
  {
    assert keys[..n + 1] == keys[..n] + [keys[n]];
  }

  lemma {:induction false} HowOftenInAll(keys: seq<string>, key: string)
    ensures HowOften(keys, key, |keys|) == multiset(keys)[key]
  {
    AllFree(keys, key, |keys|);
    assert keys[..|keys|] == keys;
  }

  /** Whether the next subnet finds a partner. */
  lemma {:induction false} NextPartner(keys0: seq<string>, keys1: seq<string>, n: nat)
    requires n < |keys0|
    ensures FirstFree(keys1, Seconds(Pairs(keys0, keys1, n)), keys0[n], |keys1|).Some?
       <==> Carried(keys0, keys1, n, keys0[n]) < HowOften(keys1, keys0[n], |keys1|)
  {
    var front := Pairs(keys0, keys1, n);
    PairsMatch(keys0, keys1, n);
    MatchingUses(keys0, keys1, front, keys0[n]);
    FreeIff(keys1, Seconds(front), keys0[n], |keys1|);
  }

  /** What one more subnet adds to the keys carried. */
  lemma {:induction false} ExtendedCarries(keys0: seq<string>, keys1: seq<string>, pairs: seq<Pair>, i: nat,
      key: string)
    requires IsMatching(keys0, keys1, pairs) && FirstsBelow(pairs, i) && i < |keys0|
    requires IsMatching(keys0, keys1, Extended(keys0, keys1, pairs, i))
    ensures KeyCount(keys0, Extended(keys0, keys1, pairs, i), key) == KeyCount(keys0, pairs, key)
              + if key == keys0[i] && FirstFree(keys1, Seconds(pairs), key, |keys1|).Some? then 1 else 0
  {
    match FirstFree(keys1, Seconds(pairs), keys0[i], |keys1|)
    case None =>
    case Some(j) => KeyCountNext(keys0, pairs, (i, j), key);
  }

  lemma {:induction false} CarriedNext(keys0: seq<string>, keys1: seq<string>, n: nat, key: string)
    requires n < |keys0|
    ensures Carried(keys0, keys1, n + 1, key) == Carried(keys0, keys1, n, key)
              + if key == keys0[n] && Carried(keys0, keys1, n, key) < HowOften(keys1, key, |keys1|) then 1 else 0
  {
    PairsMatch(keys0, keys1, n);
    PairsMatch(keys0, keys1, n + 1);
    NextPartner(keys0, keys1, n);
    ExtendedCarries(keys0, keys1, Pairs(keys0, keys1, n), n, key);
  }

  lemma {:induction false} CommonNext(keys0: seq<string>, keys1: seq<string>, n: nat, key: string)
    requires n < |keys0|
    ensures Common(keys0, keys1, n + 1, key) == Common(keys0, keys1, n, key)
              + if key == keys0[n] && Common(keys0, keys1, n, key) < HowOften(keys1, key, |keys1|) then 1 else 0
  {
  }

  lemma {:induction false} NothingCarried(keys0: seq<string>, keys1: seq<string>, key: string)
    ensures Carried(keys0, keys1, 0, key) == 0 == Common(keys0, keys1, 0, key)
  {
  }

  /** The greedy pairs carry a key as often as both sites have it. */
  ghost predicate CarriesCommon(keys0: seq<string>, keys1: seq<string>, n: nat, key: string)
    requires n <= |keys0|
  {
    Carried(keys0, keys1, n, key) == Common(keys0, keys1, n, key)
  }

  lemma {:induction false} PairsCarryNext(keys0: seq<string>, keys1: seq<string>, n: nat, key: string)
    requires n < |keys0| && CarriesCommon(keys0, keys1, n, key)
    ensures CarriesCommon(keys0, keys1, n + 1, key)
  {
    CarriedNext(keys0, keys1, n, key);
    CommonNext(keys0, keys1, n, key);
  }

  lemma {:induction false} PairsCarry(keys0: seq<string>, keys1: seq<string>, n: nat, key: string)
    requires n <= |keys0|
    ensures CarriesCommon(keys0, keys1, n, key)
  {
    NothingCarried(keys0, keys1, key);
    for m := 0 to n
      invariant CarriesCommon(keys0, keys1, m, key)
    {
      PairsCarryNext(keys0, keys1, m, key);
    }
  }

  lemma {:induction false} PairsKeys(keys0: seq<string>, keys1: seq<string>)
    requires IsMatching(keys0, keys1, Pairs(keys0, keys1, |keys0|))
    ensures KeysOf(keys0, Pairs(keys0, keys1, |keys0|)) == multiset(keys0) * multiset(keys1)
  {
    forall key ensures KeysOf(keys0, Pairs(keys0, keys1, |keys0|))[key] == (multiset(keys0) * multiset(keys1))[key] {
      PairsCarry(keys0, keys1, |keys0|, key);
      HowOftenInAll(keys0, key);
      HowOftenInAll(keys1, key);
      KeysOfCounts(keys0, Pairs(keys0, keys1, |keys0|), key);
    }
  }

  /** The number of pairs: over all keys, the smaller of the two multiplicities. */
  lemma PairCount(keys0: seq<string>, keys1: seq<string>)
    ensures |Pairs(keys0, keys1, |keys0|)| == |multiset(keys0) * multiset(keys1)|
  {
    PairsMatch(keys0, keys1, |keys0|);
    PairsKeys(keys0, keys1);
  }

  lemma SubmultisetSize(a: multiset<string>, b: multiset<string>)
    requires a <= b
    ensures |a| <= |b|
    ensures |a| == |b| ==> a == b
  {
    assert b == a + (b - a);
    if |b - a| == 0 { assert b - a == multiset{}; }
  }

  /** No one-to-one matching of equal keys has more pairs than the greedy one. */
  lemma PairsMaximum(keys0: seq<string>, keys1: seq<string>, other: seq<Pair>)
    requires IsMatching(keys0, keys1, other)
    ensures |other| <= |Pairs(keys0, keys1, |keys0|)|
  {
    var used, common := KeysOf(keys0, other), multiset(keys0) * multiset(keys1);
    PairCount(keys0, keys1);
    forall key ensures used[key] <= common[key] {
      KeysOfCounts(keys0, other, key);
      MatchingUses(keys0, keys1, other, key);
      HowOftenInAll(keys0, key);
      HowOftenInAll(keys1, key);
    }
    SubmultisetSize(used, common);
  }

  /** Nothing is dropped on either side exactly when the sites list the same networks equally often. */
  lemma NothingDroppedIff(keys0: seq<string>, keys1: seq<string>)
    ensures |Pairs(keys0, keys1, |keys0|)| == |keys0| == |keys1| <==> multiset(keys0) == multiset(keys1)
  {
    var common := multiset(keys0) * multiset(keys1);
    PairCount(keys0, keys1);
    assert |multiset(keys0)| == |keys0| && |multiset(keys1)| == |keys1|;
    SubmultisetSize(common, multiset(keys0));
    SubmultisetSize(common, multiset(keys1));
    if multiset(keys0) == multiset(keys1) { assert common == multiset(keys0); }
  }

  // ---------- the methods ----------

  /** `stringSliceSetEquals` is equality of multisets. */
  method StringSliceSetEquals(a: seq<string>, b: seq<string>) returns (equal: bool)
    ensures equal <==> multiset(a) == multiset(b)
  {
    if |a| != |b| {
      assert |multiset(a)| == |a| && |multiset(b)| == |b|;
      return false;
    }
    var remaining: map<string, nat> := map[];
    for i := 0 to |b|
      invariant forall s :: Remaining(remaining, s) == Occurrences(b[..i], s)
    {
      ghost var before := remaining;
      remaining := remaining[b[i] := Remaining(remaining, b[i]) + 1];
      forall s ensures Remaining(remaining, s) == Occurrences(b[..i + 1], s) {
        OccurrencesNext(b, i, s);
        assert Remaining(before, s) == Occurrences(b[..i], s);
      }
    }
    assert b[..|b|] == b;
    for i := 0 to |a|
      invariant forall s :: Remaining(remaining, s) + Occurrences(a[..i], s) == Occurrences(b, s)
    {
      ghost var before := remaining;
      if Remaining(remaining, a[i]) == 0 {
        OccurrencesNext(a, i, a[i]);
        OccurrencesOfPrefix(a, i + 1, a[i]);
        return false;
      }
      remaining := remaining[a[i] := Remaining(remaining, a[i]) - 1];
      forall s ensures Remaining(remaining, s) + Occurrences(a[..i + 1], s) == Occurrences(b, s) {
        OccurrencesNext(a, i, s);
        assert Remaining(before, s) + Occurrences(a[..i], s) == Occurrences(b, s);
      }
    }
    assert a[..|a|] == a;
    SameOccurrences(a, b);
    return true;
  }

  lemma OccurrencesOfPrefix(keys: seq<string>, n: nat, key: string)
    requires n <= |keys|
    ensures Occurrences(keys[..n], key) <= Occurrences(keys, key)
  {
    assert keys == keys[..n] + keys[n..];
  }

  lemma SameOccurrences(a: seq<string>, b: seq<string>)
    requires |a| == |b| && forall s :: Occurrences(a, s) <= Occurrences(b, s)
    ensures multiset(a) == multiset(b)
  {
    assert |multiset(a)| == |a| && |multiset(b)| == |b|;
    forall s ensures multiset(a)[s] <= multiset(b)[s] { assert Occurrences(a, s) <= Occurrences(b, s); }
    SubmultisetSize(multiset(a), multiset(b));
  }

  /** A Go map read. */
  function Remaining(m: map<string, nat>, s: string): nat {
    if s in m then m[s] else 0
  }

  method SubnetNetworkKeys(fd: FailureDomain) returns (keys: Result<seq<string>>)
    ensures keys == KeysOfDomain(fd)
    ensures keys.Ok? ==> |keys.value| == |fd.subnets|
  {
    if !fd.clusterFound { return Err; }
    var listed := fd.subnets;
    var ks: seq<string> := [];
    for i := 0 to |listed|
      invariant Keys(listed[..i]) == Ok(ks) && |ks| == i
    {
      assert listed[..i + 1][..i] == listed[..i];
      if listed[i].subnet.Err? {
        KeysFail(listed, i + 1);
        return Err;
      }
      ks := ks + [NetworkKey(listed[i].subnet.value)];
    }
    assert listed[..|listed|] == listed;
    return Ok(ks);
  }

  lemma {:induction false} KeysFail(listed: seq<Listed>, i: nat)
    requires i <= |listed| && Keys(listed[..i]).Err?
    ensures Keys(listed).Err?
  {
    if i < |listed| {
      assert listed[..|listed| - 1][..i] == listed[..i];
      KeysFail(listed[..|listed| - 1], i);
    } else {
      assert listed[..i] == listed;
    }
  }

  /** The names of the paired subnets of each site, aligned. */
  function NamesOf(listed: seq<Listed>, indices: seq<nat>): (r: seq<string>)
    requires forall k :: 0 <= k < |indices| ==> indices[k] < |listed|
    ensures |r| == |indices|
    ensures forall k :: 0 <= k < |indices| ==> r[k] == listed[indices[k]].name
  {
    seq(|indices|, k requires 0 <= k < |indices| => listed[indices[k]].name)
  }

  function FirstOf(pairs: seq<Pair>): (r: seq<nat>)
    ensures |r| == |pairs| && forall k :: 0 <= k < |r| ==> r[k] == pairs[k].0
  {
    seq(|pairs|, k requires 0 <= k < |pairs| => pairs[k].0)
  }

  function SecondOf(pairs: seq<Pair>): (r: seq<nat>)
    ensures |r| == |pairs| && forall k :: 0 <= k < |r| ==> r[k] == pairs[k].1
  {
    seq(|pairs|, k requires 0 <= k < |pairs| => pairs[k].1)
  }

  /** What pairing two sites yields; an error when they share no network or a site cannot be read. */
  function Paired(fd0: FailureDomain, fd1: FailureDomain): Result<(seq<string>, seq<string>)> {
    var k0, k1 := KeysOfDomain(fd0), KeysOfDomain(fd1);
    if k0.Err? || k1.Err? then Err
    else
      KeysLength(fd0.subnets);
      KeysLength(fd1.subnets);
      PairsMatch(k0.value, k1.value, |k0.value|);
      var pairs := Pairs(k0.value, k1.value, |k0.value|);
      if pairs == [] then Err
      else Ok((NamesOf(fd0.subnets, FirstOf(pairs)), NamesOf(fd1.subnets, SecondOf(pairs))))
  }

  lemma {:induction false} KeysLength(listed: seq<Listed>)
    ensures Keys(listed).Ok? ==> |Keys(listed).value| == |listed|
  {
    if listed != [] {
      KeysLength(listed[..|listed| - 1]);
    }
  }

  /** The array marks exactly the subnets in `taken`. */
  ghost predicate Marks(used: array<bool>, taken: set<nat>)
    reads used
  {
    forall i :: 0 <= i < used.Length ==> (used[i] <==> i in taken)
  }

  /** The inner loop: the first free subnet with the key, if any. */
  method TakeFree(keys: seq<string>, used: array<bool>, key: string, ghost taken: set<nat>) returns (j: Option<nat>)
    requires used.Length == |keys| && Marks(used, taken)
    modifies used
    ensures j == FirstFree(keys, taken, key, |keys|)
    ensures Marks(used, if j.Some? then taken + {j.value} else taken)
  {
    for i := 0 to |keys|
      invariant FirstFree(keys, taken, key, i) == None
      invariant Marks(used, taken)
    {
      if used[i] || keys[i] != key { continue; }
      FirstFreeStays(keys, taken, key, i + 1);
      used[i] := true;
      return Some(i);
    }
    return None;
  }

  lemma {:induction false} FirstFreeStays(keys: seq<string>, used: set<nat>, key: string, n: nat)
    requires n <= |keys| && FirstFree(keys, used, key, n).Some?
    ensures FirstFree(keys, used, key, |keys|) == FirstFree(keys, used, key, n)
    decreases |keys| - n
  {
    if n < |keys| {
      FirstFreeStays(keys, used, key, n + 1);
    }
  }

  /** `pairVHADomainSubnetsByL2`. */
  method PairSubnetsByL2(fds: seq<FailureDomain>) returns (r: Result<(seq<string>, seq<string>)>)
    ensures r == if |fds| != 2 then Err else Paired(fds[0], fds[1])
  {
    if |fds| != 2 { return Err; }
    var read0 := SubnetNetworkKeys(fds[0]);
    if read0.Err? { return Err; }
    var read1 := SubnetNetworkKeys(fds[1]);
    if read1.Err? { return Err; }
    var keys0, keys1 := read0.value, read1.value;
    PairsMatch(keys0, keys1, |keys0|);
    var names0, names1 := MatchKeys(fds[0].subnets, fds[1].subnets, keys0, keys1);
    if |names0| == 0 { return Err; }
    return Ok((names0, names1));
  }

  lemma {:induction false} NamesOfNext(listed: seq<Listed>, indices: seq<nat>, i: nat)
    requires (forall k :: 0 <= k < |indices| ==> indices[k] < |listed|) && i < |listed|
    ensures NamesOf(listed, indices + [i]) == NamesOf(listed, indices) + [listed[i].name]
  {
  }

  /** One more pair, in the forms that the loop keeps it in. */
  lemma {:induction false} PairsNext(fd0: seq<Listed>, fd1: seq<Listed>, pairs: seq<Pair>, p: Pair)
    requires forall k :: 0 <= k < |pairs| ==> pairs[k].0 < |fd0| && pairs[k].1 < |fd1|
    requires p.0 < |fd0| && p.1 < |fd1|
    ensures Seconds(pairs + [p]) == Seconds(pairs) + {p.1}
    ensures NamesOf(fd0, FirstOf(pairs + [p])) == NamesOf(fd0, FirstOf(pairs)) + [fd0[p.0].name]
    ensures NamesOf(fd1, SecondOf(pairs + [p])) == NamesOf(fd1, SecondOf(pairs)) + [fd1[p.1].name]
  {
    assert (pairs + [p])[..|pairs|] == pairs;
    assert FirstOf(pairs + [p]) == FirstOf(pairs) + [p.0] && SecondOf(pairs + [p]) == SecondOf(pairs) + [p.1];
    NamesOfNext(fd0, FirstOf(pairs), p.0);
    NamesOfNext(fd1, SecondOf(pairs), p.1);
  }

  /** The names that the loop has collected for its pairs. */
  ghost predicate Collected(fd0: seq<Listed>, fd1: seq<Listed>, pairs: seq<Pair>, names0: seq<string>,
      names1: seq<string>) {
    && (forall k :: 0 <= k < |pairs| ==> pairs[k].0 < |fd0| && pairs[k].1 < |fd1|)
    && names0 == NamesOf(fd0, FirstOf(pairs)) && names1 == NamesOf(fd1, SecondOf(pairs))
  }

  /** What finding a partner, or none, makes of the marks and the names. */
  lemma {:induction false} Collects(fd0: seq<Listed>, fd1: seq<Listed>, keys0: seq<string>, keys1: seq<string>,
                                    pairs: seq<Pair>, i: nat, names0: seq<string>, names1: seq<string>)
    requires Collected(fd0, fd1, pairs, names0, names1) && i < |keys0| == |fd0| && |keys1| == |fd1|
    ensures match FirstFree(keys1, Seconds(pairs), keys0[i], |keys1|)
            case None => Extended(keys0, keys1, pairs, i) == pairs
            case Some(j) =>
              && Seconds(Extended(keys0, keys1, pairs, i)) == Seconds(pairs) + {j}
              && Collected(fd0, fd1, Extended(keys0, keys1, pairs, i), names0 + [fd0[i].name], names1 + [fd1[j].name])
  {
    match FirstFree(keys1, Seconds(pairs), keys0[i], |keys1|)
    case None =>
    case Some(j) => PairsNext(fd0, fd1, pairs, (i, j));
  }

  method MatchKeys(fd0: seq<Listed>, fd1: seq<Listed>, keys0: seq<string>, keys1: seq<string>)
    returns (names0: seq<string>, names1: seq<string>)
    requires |keys0| == |fd0| && |keys1| == |fd1|
    ensures Collected(fd0, fd1, Pairs(keys0, keys1, |keys0|), names0, names1)
  {
    var fd1Used := new bool[|keys1|](_ => false);
    names0, names1 := [], [];
    ghost var pairs: seq<Pair> := [];
    for i := 0 to |keys0|
      invariant pairs == Pairs(keys0, keys1, i)
      invariant Marks(fd1Used, Seconds(pairs))
      invariant Collected(fd0, fd1, pairs, names0, names1)
    {
      Collects(fd0, fd1, keys0, keys1, pairs, i, names0, names1);
      var j := TakeFree(keys1, fd1Used, keys0[i], Seconds(pairs));
      pairs := Extended(keys0, keys1, pairs, i);
      if j.None? { continue; }
      names0 := names0 + [fd0[i].name];
      names1 := names1 + [fd1[j.value].name];
    }
  }

  // ---------- network mappings ----------

  /** One availability-zone entry of a mapping: a cluster and its network. */
  datatype ZoneMapping = ZoneMapping(azUrl: string, clusterName: string, clusterUuid: string, network: string)

  function Longest(subnetNames: seq<seq<string>>): nat {
    if subnetNames == [] then 0
    else
      var front, n := Longest(subnetNames[..|subnetNames| - 1]), |subnetNames[|subnetNames| - 1]|;
      if n > front then n else front
  }

  function MappingCount(subnetNames: seq<seq<string>>): nat {
    if Longest(subnetNames) > 1 then Longest(subnetNames) else 1
  }

  function NetworkAt(subnetNames: seq<seq<string>>, site: nat, index: nat): string {
    if site < |subnetNames| && index < |subnetNames[site]| then subnetNames[site][index] else ""
  }

  /** The callers name every cluster they pass. */
  method NetworkMappings(peUuids: seq<string>, peNames: seq<string>, subnetNames: seq<seq<string>>, azUrl: string)
    returns (mappings: seq<seq<ZoneMapping>>)
    requires |peNames| >= |peUuids|
    ensures |mappings| == MappingCount(subnetNames)
    ensures forall k :: 0 <= k < |mappings| ==> |mappings[k]| == |peUuids|
    ensures forall k, i :: 0 <= k < |mappings| && 0 <= i < |peUuids| ==>
              mappings[k][i] == ZoneMapping(azUrl, peNames[i], peUuids[i], NetworkAt(subnetNames, i, k))
  {
    var mappingCount := 1;
    for i := 0 to |subnetNames|
      invariant mappingCount == MappingCount(subnetNames[..i])
    {
      assert subnetNames[..i + 1][..i] == subnetNames[..i];
      if |subnetNames[i]| > mappingCount { mappingCount := |subnetNames[i]|; }
    }
    assert subnetNames[..|subnetNames|] == subnetNames;
    mappings := [];
    for k := 0 to mappingCount
      invariant |mappings| == k
      invariant forall l :: 0 <= l < k ==> |mappings[l]| == |peUuids|
      invariant forall l, i :: 0 <= l < k && 0 <= i < |peUuids| ==>
                  mappings[l][i] == ZoneMapping(azUrl, peNames[i], peUuids[i], NetworkAt(subnetNames, i, l))
    {
      var zones: seq<ZoneMapping> := [];
      for i := 0 to |peUuids|
        invariant |zones| == i
        invariant forall l :: 0 <= l < i ==>
            zones[l] == ZoneMapping(azUrl, peNames[l], peUuids[l], NetworkAt(subnetNames, l, k))
      {
        var network := "";
        if i < |subnetNames| && k < |subnetNames[i]| { network := subnetNames[i][k]; }
        zones := zones + [ZoneMapping(azUrl, peNames[i], peUuids[i], network)];
      }
      mappings := mappings + [zones];
    }
  }

  /** A subnet of a failure domain that goes by a name. */
  ghost predicate Goes(fd: FailureDomain, i: nat, name: string) {
    i < |fd.subnets| && fd.subnets[i].name == name && fd.subnets[i].subnet.Ok?
  }

  /** A paired plan has one mapping per pair, and each joins two subnets of one L2 network. */
  lemma {:induction false} OneMappingPerPair(fd0: FailureDomain, fd1: FailureDomain, k: nat)
    requires Paired(fd0, fd1).Ok? && k < |Paired(fd0, fd1).value.0|
    ensures var names := Paired(fd0, fd1).value;
            && |names.0| == |names.1| == MappingCount([names.0, names.1])
            && exists i: nat, j: nat ::
                 && Goes(fd0, i, NetworkAt([names.0, names.1], 0, k))
                   && Goes(fd1, j, NetworkAt([names.0, names.1], 1, k))
                 && NetworkKey(fd0.subnets[i].subnet.value) == NetworkKey(fd1.subnets[j].subnet.value)
  {
    var keys0, keys1 := Keys(fd0.subnets).value, Keys(fd1.subnets).value;
    var pairs := Pairs(keys0, keys1, |keys0|);
    KeysLength(fd0.subnets);
    KeysLength(fd1.subnets);
    PairsMatch(keys0, keys1, |keys0|);
    var names := Paired(fd0, fd1).value;
    LongestOfTwo(names.0, names.1);
    KeysAt(fd0.subnets, pairs[k].0);
    KeysAt(fd1.subnets, pairs[k].1);
    assert Goes(fd0, pairs[k].0, names.0[k]) && Goes(fd1, pairs[k].1, names.1[k]);
  }

  lemma LongestOfTwo(a: seq<string>, b: seq<string>)
    requires |a| == |b|
    ensures Longest([a, b]) == |a|
  {
    var both := [a, b];
    assert both[..1] == [a] && both[..1][..0] == [];
    assert Longest(both[..1]) == |a|;
  }

  lemma {:induction false} KeysAt(listed: seq<Listed>, i: nat)
    requires Keys(listed).Ok? && i < |listed|
    ensures i < |Keys(listed).value| && listed[i].subnet.Ok?
        && Keys(listed).value[i] == NetworkKey(listed[i].subnet.value)
  {
    KeysLength(listed);
    KeysLength(listed[..|listed| - 1]);
    if i < |listed| - 1 {
      KeysAt(listed[..|listed| - 1], i);
    }
  }
}
