/**
 Prism Central versions: how they are parsed and compared, and where the order is one.

 Go's strings are bytes; here they are sequences of characters, and letter case and white space are
 those of ASCII and Latin-1.
 */
module Versions {
  import opened Wrappers
  import opened Ascii
  import opened Decimal

  // ---------- parsing ----------

  /** `strings.Split(s, ".")`. */
  function Split(s: string): (parts: seq<string>)
    ensures parts != []
  {
    if s == "" then [""]
    else
      var rest := Split(s[1..]);
      if s[0] == '.' then [""] + rest else [[s[0]] + rest[0]] + rest[1..]
  }

  const INT_MAX := 0x7FFF_FFFF_FFFF_FFFF

  /** `strconv.Atoi`: an optional sign, digits, and a value that an int holds. */
  function Atoi(s: string): Option<int> {
    var digits := if s != "" && s[0] in {'+', '-'} then s[1..] else s;
    if digits == "" || !AllDigits(digits) then None
    else
      var value: int := if s[0] == '-' then 0 - ValueOf(digits) else ValueOf(digits);
      if -INT_MAX - 1 <= value <= INT_MAX then Some(value) else None
  }

  const UNPARSEABLE := [9999]

  function Values(parts: seq<string>): Option<seq<int>> {
    if parts == [] then Some([])
    else
      var front, last := Values(parts[..|parts| - 1]), Atoi(parts[|parts| - 1]);
      if front.Some? && last.Some? then Some(front.value + [last.value]) else None
  }

  /** `convertStringToIntList`. */
  function Parse(s: string): seq<int> {
    var values := Values(Split(s));
    if values.Some? then values.value else UNPARSEABLE
  }

  predicate IsMaster(s: string) {
    |s| == 6 && forall i :: 0 <= i < 6 ==> Lower(s[i]) == "master"[i]
  }

  function Components(s: string): seq<int> {
    Parse(if IsMaster(s) then "9999" else s)
  }

  // ---------- the order on lists ----------

  /** A list of components, padded with zeros without end. */
  function At(l: seq<int>, k: nat): int {
    if k < |l| then l[k] else 0
  }

  function CompareFrom(a: seq<int>, b: seq<int>, i: nat, n: nat): (r: int)
    decreases n - i
  {
    if i >= n then 0
    else if At(a, i) > At(b, i) then 1
    else if At(a, i) < At(b, i) then -1
    else CompareFrom(a, b, i + 1, n)
  }

  function MaxLength(a: seq<int>, b: seq<int>): nat {
    if |a| > |b| then |a| else |b|
  }

  function CompareLists(a: seq<int>, b: seq<int>): int {
    CompareFrom(a, b, 0, MaxLength(a, b))
  }

  /** Lexicographic order of the padded lists. */
  ghost predicate Precedes(a: seq<int>, b: seq<int>) {
    exists k: nat :: SplitsAt(a, b, k)
  }

  ghost predicate SplitsAt(a: seq<int>, b: seq<int>, k: nat) {
    At(a, k) < At(b, k) && AgreeTo(a, b, k)
  }

  ghost predicate AgreeTo(a: seq<int>, b: seq<int>, k: nat) {
    forall j: nat :: j < k ==> At(a, j) == At(b, j)
  }

  lemma {:induction false} CompareFromIs(a: seq<int>, b: seq<int>, i: nat, n: nat)
    requires i <= n && AgreeTo(a, b, i)
    ensures CompareFrom(a, b, i, n) == -1 ==> Precedes(a, b)
    ensures CompareFrom(a, b, i, n) == 1 ==> Precedes(b, a)
    ensures CompareFrom(a, b, i, n) == 0 ==> AgreeTo(a, b, n)
    ensures CompareFrom(a, b, i, n) in {-1, 0, 1}
    decreases n - i
  {
    if i < n {
      if At(a, i) < At(b, i) {
        assert SplitsAt(a, b, i);
      } else if At(a, i) > At(b, i) {
        assert SplitsAt(b, a, i);
      } else {
        CompareFromIs(a, b, i + 1, n);
      }
    }
  }

  lemma PrecedesAsymmetric(a: seq<int>, b: seq<int>)
    requires Precedes(a, b)
    ensures !Precedes(b, a)
    ensures exists k: nat :: At(a, k) != At(b, k)
  {
    var k: nat :| SplitsAt(a, b, k);
    forall l: nat ensures !SplitsAt(b, a, l) {
      if k < l { assert At(a, k) != At(b, k); }
    }
  }

  /** The loop computes the order: below, above, or equal in every place. */
  lemma CompareIs(a: seq<int>, b: seq<int>)
    ensures CompareLists(a, b) in {-1, 0, 1}
    ensures CompareLists(a, b) == -1 <==> Precedes(a, b)
    ensures CompareLists(a, b) == 1 <==> Precedes(b, a)
    ensures CompareLists(a, b) == 0 <==> forall k: nat :: At(a, k) == At(b, k)
  {
    var n := MaxLength(a, b);
    CompareFromIs(a, b, 0, n);
    if CompareLists(a, b) == 0 {
      forall k: nat ensures At(a, k) == At(b, k) { if k < n { assert AgreeTo(a, b, n); } }
    }
    if Precedes(a, b) { PrecedesAsymmetric(a, b); }
    if Precedes(b, a) { PrecedesAsymmetric(b, a); }
  }

  lemma CompareReverses(a: seq<int>, b: seq<int>)
    ensures CompareLists(a, b) == -CompareLists(b, a)
  {
    CompareIs(a, b);
    CompareIs(b, a);
  }

  /** The first place up to `k` where two lists differ. */
  lemma {:induction false} FirstDifference(a: seq<int>, b: seq<int>, k: nat) returns (j: Option<nat>)
    ensures j.None? ==> AgreeTo(a, b, k)
    ensures j.Some? ==> j.value < k && AgreeTo(a, b, j.value) && At(a, j.value) != At(b, j.value)
  {
    if k == 0 {
      j := None;
    } else {
      j := FirstDifference(a, b, k - 1);
      if j.None? && At(a, k - 1) != At(b, k - 1) { j := Some(k - 1); }
    }
  }

  lemma NotAboveTransitive(a: seq<int>, b: seq<int>, c: seq<int>)
    requires !Precedes(b, a) && !Precedes(c, b)
    ensures !Precedes(c, a)
  {
    if Precedes(c, a) {
      var k: nat :| SplitsAt(c, a, k);
      var j := FirstDifference(a, b, k + 1);
      if j.Some? {
        assert !SplitsAt(b, a, j.value);
        assert SplitsAt(c, b, j.value);
      } else {
        assert SplitsAt(c, b, k);
      }
      assert false;
    }
  }

  /** A total preorder on all lists. */
  lemma ListsTransitive(a: seq<int>, b: seq<int>, c: seq<int>)
    requires CompareLists(a, b) <= 0 && CompareLists(b, c) <= 0
    ensures CompareLists(a, c) <= 0
    ensures CompareLists(a, c) == 0 ==> CompareLists(a, b) == 0 && CompareLists(b, c) == 0
  {
    CompareIs(a, b);
    CompareIs(b, c);
    CompareIs(a, c);
    NotAboveTransitive(a, b, c);
    if CompareLists(a, c) == 0 {
      CompareIs(c, a);
      CompareIs(b, a);
      CompareIs(c, b);
      NotAboveTransitive(b, c, a);
      NotAboveTransitive(c, a, b);
    }
  }

  /** Zeros at the end do not count. */
  lemma TrailingZeros(a: seq<int>, zeros: seq<int>, b: seq<int>)
    requires forall i :: 0 <= i < |zeros| ==> zeros[i] == 0
    ensures CompareLists(a + zeros, b) == CompareLists(a, b)
    ensures CompareLists(a, a + zeros) == 0
  {
    var c := a + zeros;
    assert forall k: nat :: At(c, k) == At(a, k);
    CompareIs(a, b);
    CompareIs(c, b);
    CompareIs(a, c);
    assert forall k: nat :: SplitsAt(a, b, k) <==> SplitsAt(c, b, k);
    assert forall k: nat :: SplitsAt(b, a, k) <==> SplitsAt(b, c, k);
  }

  // ---------- the methods ----------

  lemma {:induction false} ValuesFail(parts: seq<string>, i: nat)
    requires i <= |parts| && Values(parts[..i]).None?
    ensures Values(parts).None?
  {
    if i < |parts| {
      assert parts[..|parts| - 1][..i] == parts[..i];
      ValuesFail(parts[..|parts| - 1], i);
    } else {
      assert parts[..i] == parts;
    }
  }

  lemma ValuesNext(parts: seq<string>, i: nat)
    requires i < |parts|
    ensures var front, last := Values(parts[..i]), Atoi(parts[i]);
            Values(parts[..i + 1]) == if front.Some? && last.Some? then Some(front.value + [last.value]) else None
  {
    assert parts[..i + 1][..i] == parts[..i];
  }

  method ConvertStringToIntList(s: string) returns (list: seq<int>)
    ensures list == Parse(s)
  {
    var parts := Split(s);
    list := [];
    for i := 0 to |parts|
      invariant Values(parts[..i]) == Some(list)
    {
      ValuesNext(parts, i);
      var value := Atoi(parts[i]);
      if value.None? {
        ValuesFail(parts, i + 1);
        return [9999];
      }
      list := list + [value.value];
    }
    assert parts[..|parts|] == parts;
  }

  /** Go's `copy` into a fresh slice of zeros. */
  method Padded(list: seq<int>, n: nat) returns (a: array<int>)
    requires |list| <= n
    ensures fresh(a) && a.Length == n && forall i :: 0 <= i < n ==> a[i] == At(list, i)
  {
    a := new int[n](_ => 0);
    for i := 0 to |list|
      invariant forall j :: 0 <= j < n ==> a[j] == if j < i then list[j] else 0
    {
      a[i] := list[i];
    }
  }

  /** The loop over the normalised lists. */
  method CompareNormalised(l1: seq<int>, l2: seq<int>) returns (r: int)
    ensures r == CompareLists(l1, l2)
  {
    var maxLen := if |l1| > |l2| then |l1| else |l2|;
    var norm1 := Padded(l1, maxLen);
    var norm2 := Padded(l2, maxLen);
    for i := 0 to maxLen
      invariant CompareLists(l1, l2) == CompareFrom(l1, l2, i, maxLen)
    {
      if norm1[i] > norm2[i] { return 1; }
      if norm1[i] < norm2[i] { return -1; }
    }
    return 0;
  }

  method CompareVersions(v1: string, v2: string) returns (r: int)
    ensures r == CompareLists(Components(v1), Components(v2))
  {
    var l1 := ConvertStringToIntList(if IsMaster(v1) then "9999" else v1);
    var l2 := ConvertStringToIntList(if IsMaster(v2) then "9999" else v2);
    r := CompareNormalised(l1, l2);
  }

  // ---------- versions of Prism Central ----------

  predicate IsSpace(c: char) {
    c in {' ', '\t', '\n', '\r', 0x0B as char, 0x0C as char, 0x85 as char, 0xA0 as char}
  }

  function TrimLeft(s: string): string {
    if s != "" && IsSpace(s[0]) then TrimLeft(s[1..]) else s
  }

  function TrimRight(s: string): string {
    if s != "" && IsSpace(s[|s| - 1]) then TrimRight(s[..|s| - 1]) else s
  }

  function ToLower(s: string): (r: string)
    ensures |r| == |s|
  {
    seq(|s|, i requires 0 <= i < |s| => Lower(s[i]))
  }

  /** `CleanPCVersion`. */
  function Clean(s: string): string {
    var lower := ToLower(TrimLeft(TrimRight(s)));
    if "pc." <= lower then lower[3..] else lower
  }

  predicate IsUpper(c: char) {
    'A' <= c <= 'Z'
  }

  /** Text that cleaning takes as it is: no white space around, no upper case, no prefix to strip. */
  predicate IsClean(s: string) {
    && (s == "" || (!IsSpace(s[0]) && !IsSpace(s[|s| - 1])))
    && (forall i :: 0 <= i < |s| ==> !IsUpper(s[i]))
    && !("pc." <= s)
  }

  lemma TrimmedIs(s: string)
    requires s == "" || (!IsSpace(s[0]) && !IsSpace(s[|s| - 1]))
    ensures TrimLeft(TrimRight(s)) == s
  {
  }

  lemma LowerKeeps(s: string)
    requires forall i :: 0 <= i < |s| ==> !IsUpper(s[i])
    ensures ToLower(s) == s
  {
  }

  lemma CleanKeeps(s: string)
    requires IsClean(s)
    ensures Clean(s) == s
  {
    TrimmedIs(s);
    LowerKeeps(s);
  }

  lemma LowerJoin(a: string, b: string)
    ensures ToLower(a + b) == ToLower(a) + ToLower(b)
  {
  }

  /** The prefix is stripped, in upper or lower case, and once only. */
  lemma CleanStrips(prefix: string, rest: string)
    requires ToLower(prefix) == "pc." && rest != "" && !IsSpace(rest[|rest| - 1])
    ensures Clean(prefix + rest) == ToLower(rest)
  {
    var all := prefix + rest;
    assert |prefix| == 3 && Lower(prefix[0]) == ToLower(prefix)[0] == 'p';
    TrimmedIs(all);
    LowerJoin(prefix, rest);
    assert ("pc." + ToLower(rest))[3..] == ToLower(rest);
  }

  /** White space around a version, and letter case, make no difference. */
  lemma CleanIgnoresSpace(s: string, c: char)
    requires IsSpace(c)
    ensures Clean([c] + s) == Clean(s) && Clean(s + [c]) == Clean(s)
  {
    assert (s + [c])[..|s|] == s;
    TrimLeftFirst(c, s);
  }

  lemma {:induction false} TrimLeftFirst(c: char, s: string)
    requires IsSpace(c)
    ensures TrimLeft(TrimRight([c] + s)) == TrimLeft(TrimRight(s))
    decreases |s|
  {
    if s == "" {
      assert [c] + s == [c] && [c][..0] == "";
    } else if IsSpace(s[|s| - 1]) {
      assert ([c] + s)[..|s|] == [c] + s[..|s| - 1];
      TrimLeftFirst(c, s[..|s| - 1]);
    } else {
      assert ([c] + s)[1..] == s;
    }
  }

  lemma CleanIgnoresCase(a: string, b: string)
    requires ToLower(TrimLeft(TrimRight(a))) == ToLower(TrimLeft(TrimRight(b)))
    ensures Clean(a) == Clean(b)
  {
  }

  /** One or more components of digits only. */
  predicate AreNumbers(parts: seq<string>) {
    parts != [] && forall i :: 0 <= i < |parts| ==> parts[i] != "" && AllDigits(parts[i])
  }

  /** `^7((\.\d+)+)$`. */
  predicate Is7x(s: string) {
    var parts := Split(s);
    parts[0] == "7" && AreNumbers(parts[1..])
  }

  /** `^202(\d(\.\d+)+)$`. */
  predicate Is202x(s: string) {
    var parts := Split(s);
    |parts[0]| == 4 && parts[0][..3] == "202" && IsDigit(parts[0][3]) && AreNumbers(parts[1..])
  }

  /** `ComparePCVersions`, of versions already cleaned; its two expressions always compile. */
  function ComparePc(v1: string, v2: string): int {
    if Is7x(v1) && Is202x(v2) then 1
    else if Is7x(v2) && Is202x(v1) then -1
    else CompareLists(Components(v1), Components(v2))
  }

  method ComparePcVersions(v1: string, v2: string) returns (r: int)
    ensures r == ComparePc(Clean(v1), Clean(v2))
  {
    var clean1, clean2 := Clean(v1), Clean(v2);
    if Is7x(clean1) && Is202x(clean2) { return 1; }
    if Is7x(clean2) && Is202x(clean1) { return -1; }
    r := CompareVersions(clean1, clean2);
  }

  method IsPcVersionHigherThan75(version: string) returns (r: bool)
    ensures r <==> Gate(Clean(version))
  {
    var v := Clean(version);
    if v == "" { return false; }
    var c := CompareVersions(v, "7.6");
    return c >= 0;
  }

  predicate Gate(v: string) {
    v != "" && CompareLists(Components(v), Components("7.6")) >= 0
  }

  lemma NotBoth(v: string)
    ensures !(Is7x(v) && Is202x(v))
  {
  }

  /** Antisymmetry on all inputs. */
  lemma ComparePcReverses(v1: string, v2: string)
    ensures ComparePc(v1, v2) == -ComparePc(v2, v1)
  {
    NotBoth(v1);
    NotBoth(v2);
    CompareReverses(Components(v1), Components(v2));
  }

  // ---------- reading versions ----------

  ghost predicate NoDot(s: string) {
    forall i :: 0 <= i < |s| ==> s[i] != '.'
  }

  lemma {:induction false} SplitNoDot(p: string)
    requires NoDot(p)
    ensures Split(p) == [p]
  {
    if p != "" {
      SplitNoDot(p[1..]);
      assert [p[0]] + p[1..] == p;
    }
  }

  lemma {:induction false} SplitAtDot(p: string, rest: string)
    requires NoDot(p)
    ensures Split(p + "." + rest) == [p] + Split(rest)
  {
    var s := p + "." + rest;
    if p == "" {
      assert s[1..] == rest;
    } else {
      SplitAtDot(p[1..], rest);
      assert s[1..] == p[1..] + "." + rest;
      assert [p[0]] + p[1..] == p;
    }
  }

  lemma {:induction false} ValuesAre(parts: seq<string>, values: seq<int>)
    requires |parts| == |values| && forall i :: 0 <= i < |parts| ==> Atoi(parts[i]) == Some(values[i])
    ensures Values(parts) == Some(values)
  {
    if parts != [] {
      ValuesAre(parts[..|parts| - 1], values[..|values| - 1]);
      assert values == values[..|values| - 1] + [values[|values| - 1]];
    }
  }

  lemma {:induction false} ValuesAt(parts: seq<string>, i: nat)
    requires Values(parts).Some? && i < |parts|
    ensures |Values(parts).value| == |parts| && Atoi(parts[i]) == Some(Values(parts).value[i])
  {
    ValuesLength(parts);
    if i < |parts| - 1 {
      ValuesLength(parts[..|parts| - 1]);
      ValuesAt(parts[..|parts| - 1], i);
    }
  }

  lemma {:induction false} ValuesLength(parts: seq<string>)
    ensures Values(parts).Some? ==> |Values(parts).value| == |parts|
  {
    if parts != [] {
      ValuesLength(parts[..|parts| - 1]);
    }
  }

  /** `CompareVersions` treats "master" apart, to no effect: it cannot be parsed anyway. */
  lemma MasterIsUnparseable(s: string)
    ensures Components(s) == Parse(s)
  {
    if IsMaster(s) {
      forall i | 0 <= i < |s| ensures s[i] != '.' { assert Lower(s[i]) == "master"[i]; }
      SplitNoDot(s);
      assert Lower(s[0]) == 'm' && !IsDigit(s[0]) && s[0] !in {'+', '-'};
      assert Values([s][..0]) == Some([]) && Atoi(s) == None;
      NinesAreUnparseable();
    }
  }

  lemma NinesAreUnparseable()
    ensures Parse("9999") == UNPARSEABLE
  {
    var s := "9999";
    SplitNoDot(s);
    assert s[..3] == "999" && s[..3][..2] == "99" && s[..3][..2][..1] == "9" && s[..3][..2][..1][..0] == "";
    assert ValueOf("9") == 9 && ValueOf("99") == 99 && ValueOf("999") == 999 && ValueOf(s) == 9999;
    ValuesAre([s], [9999]);
  }

  /** The first component of a version of either family, and that none is negative. */
  predicate Fits(v: string) {
    Values(Split(v)).Some?
  }

  lemma SevenFirst(v: string)
    requires Is7x(v) && Fits(v)
    ensures At(Components(v), 0) == 7 && forall k: nat :: At(Components(v), k) >= 0
  {
    MasterIsUnparseable(v);
    var parts := Split(v);
    assert "7"[..0] == "" && ValueOf("7") == 7;
    ValuesAt(parts, 0);
    forall k: nat ensures At(Components(v), k) >= 0 {
      if k < |Components(v)| {
        ValuesAt(parts, k);
        if k > 0 { assert parts[k] == parts[1..][k - 1]; }
      }
    }
  }

  lemma YearValue(s: string)
    requires |s| == 4 && s[..3] == "202" && IsDigit(s[3])
    ensures NoDot(s) && Atoi(s) == Some(2020 + (s[3] - '0') as int)
  {
    assert s[0] == s[..3][0] == '2' && s[1] == s[..3][1] == '0' && s[2] == s[..3][2] == '2';
    assert "202"[..2] == "20" && "20"[..1] == "2" && "2"[..0] == "";
    assert ValueOf("2") == 2 && ValueOf("20") == 20 && ValueOf("202") == 202;
  }

  lemma YearFirst(v: string)
    requires Is202x(v)
    ensures Fits(v) ==> 2020 <= At(Components(v), 0) <= 2029
    ensures !Fits(v) ==> Components(v) == UNPARSEABLE
  {
    MasterIsUnparseable(v);
    var parts := Split(v);
    YearValue(parts[0]);
    if Fits(v) { ValuesAt(parts, 0); }
  }

  ghost predicate AllNumbers(texts: seq<string>) {
    texts != [] && forall i :: 0 <= i < |texts| ==> texts[i] != "" && AllDigits(texts[i])
  }

  lemma DottedMore(first: string, rest: seq<string>)
    ensures Dotted([first] + rest) == "." + first + Dotted(rest)
  {
    assert ([first] + rest)[1..] == rest;
  }

  lemma Reassociate(a: string, b: string, c: string)
    ensures a + (b + c) == (a + b) + c
  {
  }

  lemma {:induction false} SplitJoins(s: string)
    ensures s == Split(s)[0] + Dotted(Split(s)[1..])
  {
    if s != "" {
      var rest := Split(s[1..]);
      SplitJoins(s[1..]);
      assert s == [s[0]] + s[1..] && rest == [rest[0]] + rest[1..];
      if s[0] == '.' {
        assert Split(s)[1..] == rest;
        DottedMore(rest[0], rest[1..]);
        Reassociate(".", rest[0], Dotted(rest[1..]));
      } else {
        assert Split(s)[1..] == rest[1..];
        Reassociate([s[0]], rest[0], Dotted(rest[1..]));
      }
    }
  }

  /** The 7.x family: "7" and one or more components of digits, each after a dot. */
  lemma {:induction false} Is7xIff(v: string)
    ensures Is7x(v) <==> exists texts :: AllNumbers(texts) && v == "7" + Dotted(texts)
  {
    SplitJoins(v);
    if Is7x(v) { assert AllNumbers(Split(v)[1..]); }
    forall texts | AllNumbers(texts) && v == "7" + Dotted(texts) ensures Is7x(v) {
      SplitDotted("7", texts);
      assert Split(v)[1..] == texts;
    }
  }

  /** The 202x family: "202", one more digit, and components in the same way. */
  lemma {:induction false} Is202xIff(v: string)
    ensures Is202x(v) <==> exists d, texts :: IsDigit(d) && AllNumbers(texts) && v == "202" + [d] + Dotted(texts)
  {
    SplitJoins(v);
    if Is202x(v) {
      var year := Split(v)[0];
      assert year == year[..3] + [year[3]];
      assert AllNumbers(Split(v)[1..]) && v == "202" + [year[3]] + Dotted(Split(v)[1..]);
    }
    forall d, texts | IsDigit(d) && AllNumbers(texts) && v == "202" + [d] + Dotted(texts) ensures Is202x(v) {
      SplitDotted("202" + [d], texts);
      assert Split(v)[1..] == texts && ("202" + [d])[..3] == "202";
    }
  }

  // ---------- where the order is one ----------

  lemma FirstDecides(a: seq<int>, b: seq<int>)
    requires At(a, 0) < At(b, 0)
    ensures CompareLists(a, b) == -1
  {
    CompareIs(a, b);
    assert SplitsAt(a, b, 0);
  }

  lemma PointwiseNotAbove(a: seq<int>, b: seq<int>)
    requires forall k: nat :: At(a, k) <= At(b, k)
    ensures CompareLists(a, b) <= 0
  {
    CompareIs(a, b);
  }

  /** A list that lies below 7, or above every 202x. */
  predicate Safe(l: seq<int>) {
    CompareLists(l, [7]) < 0 || At(l, 0) >= 2030
  }

  /** All 7.x versions, the 202x versions whose components an int holds, and other versions outside their range. */
  predicate Ordered(v: string) {
    if Is7x(v) then true else if Is202x(v) then Fits(v) else Safe(Components(v))
  }

  function Rank(v: string): nat {
    if Is202x(v) then 1
    else if Is7x(v) && Fits(v) then 2
    else if CompareLists(Components(v), [7]) < 0 then 0
    else 3
  }

  function Sign(x: int): int {
    if x < 0 then -1 else if x > 0 then 1 else 0
  }

  lemma SevenAtLeast(v: string)
    requires Is7x(v) && Fits(v)
    ensures CompareLists([7], Components(v)) <= 0
  {
    SevenFirst(v);
    PointwiseNotAbove([7], Components(v));
  }

  lemma UnparseableComponents(v: string)
    requires !Fits(v)
    ensures Components(v) == UNPARSEABLE
    ensures CompareLists(Components(v), [7]) == 1
  {
    MasterIsUnparseable(v);
    FirstDecides([7], UNPARSEABLE);
    CompareReverses(UNPARSEABLE, [7]);
  }

  /** Where the ranks put the first component. */
  lemma RankFirst(v: string)
    requires Ordered(v)
    ensures Rank(v) == 0 ==> !Is202x(v) && !Is7x(v) && CompareLists(Components(v), [7]) < 0
    ensures Rank(v) == 1 ==> 2020 <= At(Components(v), 0) <= 2029
    ensures Rank(v) == 2 ==> At(Components(v), 0) == 7 && CompareLists([7], Components(v)) <= 0
    ensures Rank(v) == 3 ==> At(Components(v), 0) >= 2030
  {
    NotBoth(v);
    if Is202x(v) {
      YearFirst(v);
    } else if Is7x(v) && Fits(v) {
      SevenFirst(v);
      SevenAtLeast(v);
      CompareReverses([7], Components(v));
    } else if Is7x(v) {
      UnparseableComponents(v);
    }
  }

  /** Versions of different ranks compare as their ranks do, on lists as well unless both families meet. */
  lemma LowerRank(v1: string, v2: string)
    requires Ordered(v1) && Ordered(v2) && Rank(v1) < Rank(v2)
    ensures ComparePc(v1, v2) == -1
  {
    var l1, l2 := Components(v1), Components(v2);
    NotBoth(v1);
    NotBoth(v2);
    RankFirst(v1);
    RankFirst(v2);
    if Rank(v1) == 0 {
      if Rank(v2) != 2 { FirstDecides([7], l2); }
      ListsTransitive(l1, [7], l2);
      CompareIs(l1, l2);
    } else if Rank(v2) == 3 {
      FirstDecides(l1, l2);
    }
  }

  /** On ordered versions, ranks decide first and components second. */
  lemma RankDecides(v1: string, v2: string)
    requires Ordered(v1) && Ordered(v2)
    ensures Rank(v1) == Rank(v2) ==> ComparePc(v1, v2) == CompareLists(Components(v1), Components(v2))
    ensures Rank(v1) != Rank(v2) ==> ComparePc(v1, v2) == Sign(Rank(v1) - Rank(v2))
  {
    NotBoth(v1);
    NotBoth(v2);
    if Rank(v1) < Rank(v2) {
      LowerRank(v1, v2);
    } else if Rank(v2) < Rank(v1) {
      LowerRank(v2, v1);
      ComparePcReverses(v1, v2);
    }
  }

  /** `ComparePCVersions` is a total preorder on ordered versions. */
  lemma PcTransitive(v1: string, v2: string, v3: string)
    requires Ordered(v1) && Ordered(v2) && Ordered(v3)
    requires ComparePc(v1, v2) <= 0 && ComparePc(v2, v3) <= 0
    ensures ComparePc(v1, v3) <= 0
  {
    RankDecides(v1, v2);
    RankDecides(v2, v3);
    RankDecides(v1, v3);
    if Rank(v1) == Rank(v2) == Rank(v3) {
      ListsTransitive(Components(v1), Components(v2), Components(v3));
    }
  }

  // ---------- unparseable versions ----------

  /** Outside the 202x family, unparseable versions are ordered, and above all of both families that can be parsed. */
  lemma UnparseableOnTop(v: string, w: string)
    requires !Is202x(v) && !Fits(v)
    requires (Is7x(w) || Is202x(w)) && Fits(w)
    ensures Ordered(v) && ComparePc(v, w) == 1
  {
    UnparseableComponents(v);
    RankFirst(v);
    NotBoth(w);
    LowerRank(w, v);
    ComparePcReverses(v, w);
  }

  /**
   The documented promise, that an unparseable version is the greater one, holds exactly when the other
   lies below 9999 and the two are not a 202x and a 7.x, in this order.
   */
  lemma UnparseableGreaterIff(u: string, w: string)
    requires !Fits(u) && Fits(w)
    ensures ComparePc(u, w) == 1 <==> !(Is202x(u) && Is7x(w)) && CompareLists(Components(w), UNPARSEABLE) < 0
  {
    UnparseableComponents(u);
    NotBoth(u);
    NotBoth(w);
    CompareReverses(UNPARSEABLE, Components(w));
    CompareIs(UNPARSEABLE, Components(w));
    if Is7x(u) && Is202x(w) {
      YearFirst(w);
      FirstDecides(Components(w), UNPARSEABLE);
    }
  }

  /** The other half of the promise: two unparseable versions are equal unless the two families meet. */
  lemma UnparseableEqualIff(u: string, w: string)
    requires !Fits(u) && !Fits(w)
    ensures ComparePc(u, w) == 0 <==> !(Is7x(u) && Is202x(w)) && !(Is202x(u) && Is7x(w))
  {
    UnparseableComponents(u);
    UnparseableComponents(w);
    CompareIs(UNPARSEABLE, UNPARSEABLE);
  }

  /** A version of one number. */
  lemma NumberVersion(n: nat)
    requires n <= INT_MAX
    ensures var s := Itoa(n); NoDot(s) && Fits(s) && Components(s) == [n] && !Is7x(s) && !Is202x(s)
  {
    var s := Itoa(n);
    AtoiItoa(n);
    NoFamily(s);
    SplitNoDot(s);
    ValuesAre([s], [n]);
    MasterIsUnparseable(s);
  }

  lemma Unsigned(s: string)
    requires NoDot(s) && s != "" && !IsDigit(s[0]) && s[0] !in {'+', '-'}
    ensures !Fits(s)
  {
    SplitNoDot(s);
    assert Values([s][..0]) == Some([]) && Atoi(s) == None;
  }

  /** It fails for any release number above 9999. */
  lemma UnparseableBelowNumber(u: string, n: nat)
    requires !Fits(u) && 9999 < n <= INT_MAX
    ensures Fits(Itoa(n)) && ComparePc(u, Itoa(n)) == -1
  {
    UnparseableComponents(u);
    NumberVersion(n);
    FirstDecides(UNPARSEABLE, [n]);
  }

  lemma MasterBelowTenThousand(u: string, w: string)
    requires u == "master" && w == "10000"
    ensures !Fits(u) && Fits(w) && ComparePc(u, w) == -1
  {
    Unsigned(u);
    TenThousandText();
    UnparseableBelowNumber(u, 10000);
  }

  lemma TenThousandText()
    ensures Itoa(10000) == "10000"
  {
    assert Digits(10) == "10" && Digits(100) == "100" && Digits(1000) == "1000";
  }

  lemma NoFamily(s: string)
    requires NoDot(s)
    ensures !Is7x(s) && !Is202x(s)
  {
    SplitNoDot(s);
  }

  function Power10(k: nat): nat {
    if k == 0 then 1 else 10 * Power10(k - 1)
  }

  /** A number without leading zeros has as many digits as it takes. */
  lemma {:induction false} ManyDigits(s: string)
    requires s != "" && AllDigits(s) && s[0] != '0'
    ensures ValueOf(s) >= Power10(|s| - 1)
  {
    if |s| > 1 {
      ManyDigits(s[..|s| - 1]);
    } else {
      assert s[..0] == "";
    }
  }

  const OVERFLOWING := "99999999999999999999"

  lemma LongOverflows(s: string)
    requires AllDigits(s) && |s| >= 20 && s[0] != '0'
    ensures Atoi(s) == None && NoDot(s)
  {
    ManyDigits(s);
    PowersGrow(19, |s| - 1);
    TenToTheNineteen();
  }

  lemma TenToTheNineteen()
    ensures Power10(19) > INT_MAX
  {
    assert Power10(9) == 1_000_000_000 && Power10(14) == 100_000 * Power10(9) && Power10(19) == 100_000 * Power10(14);
  }

  lemma {:induction false} PowersGrow(k: nat, l: nat)
    requires k <= l
    ensures Power10(k) <= Power10(l)
  {
    if k < l {
      PowersGrow(k, l - 1);
    }
  }

  lemma OverflowingYear(s: string)
    requires AllDigits(s) && |s| >= 20 && s[0] != '0'
    ensures Is202x("2024." + s) && !Fits("2024." + s)
  {
    var v, parts := "2024." + s, ["2024", s];
    LongOverflows(s);
    SplitNoDot(s);
    SplitAtDot("2024", s);
    assert "2024" + "." + s == v;
    assert Split(v) == parts && parts[1..] == [s] && "2024"[..3] == "202";
    assert Values(parts).None?;
  }

  /** And it fails for a 202x version with a component that overflows an int. */
  lemma OverflowingYearBelowSeven()
    ensures !Fits("2024." + OVERFLOWING) && Fits("7.3") && ComparePc("2024." + OVERFLOWING, "7.3") == -1
  {
    OverflowingYear(OVERFLOWING);
    SevenMinor('3');
    assert "7.3" == "7." + ['3'];
    NotBoth("7.3");
    NotBoth("2024." + OVERFLOWING);
  }

  // ---------- and where it is not ----------

  /** A version put together again: its components, each after a dot. */
  function Dotted(texts: seq<string>): string {
    if texts == [] then "" else "." + texts[0] + Dotted(texts[1..])
  }

  function Texts(cs: seq<nat>): (r: seq<string>)
    ensures |r| == |cs| && forall i :: 0 <= i < |cs| ==> r[i] == Itoa(cs[i])
  {
    seq(|cs|, i requires 0 <= i < |cs| => Itoa(cs[i]))
  }

  lemma {:induction false} SplitDotted(p: string, texts: seq<string>)
    requires NoDot(p) && forall i :: 0 <= i < |texts| ==> NoDot(texts[i])
    ensures Split(p + Dotted(texts)) == [p] + texts
    decreases texts
  {
    if texts == [] {
      assert p + Dotted(texts) == p;
      SplitNoDot(p);
    } else {
      SplitDotted(texts[0], texts[1..]);
      SplitAtDot(p, texts[0] + Dotted(texts[1..]));
      assert p + Dotted(texts) == p + "." + (texts[0] + Dotted(texts[1..]));
    }
  }

  lemma AtoiItoa(c: nat)
    requires c <= INT_MAX
    ensures Atoi(Itoa(c)) == Some(c) && NoDot(Itoa(c)) && Itoa(c) != "" && AllDigits(Itoa(c))
  {
    DigitsValue(c);
    assert IsDigit(Digits(c)[0]);
  }

  /** A sign is read as one. */
  lemma AtoiSigned(c: nat)
    requires c <= INT_MAX
    ensures var value: int := c; Atoi("-" + Digits(c)) == Some(-value) && Atoi("+" + Digits(c)) == Some(value)
  {
    DigitsValue(c);
    assert ("-" + Digits(c))[1..] == Digits(c) && ("+" + Digits(c))[1..] == Digits(c);
  }

  /** A version of the 202x family with given components. */
  lemma YearVersion(year: string, cs: seq<nat>)
    requires |year| == 4 && year[..3] == "202" && IsDigit(year[3])
    requires cs != [] && forall i :: 0 <= i < |cs| ==> cs[i] <= INT_MAX
    ensures var b := year + Dotted(Texts(cs));
            Is202x(b) && Fits(b) && Components(b) == [2020 + (year[3] - '0') as int] + cs
  {
    var texts, values := Texts(cs), [2020 + (year[3] - '0') as int] + cs;
    var b := year + Dotted(texts);
    forall i | 0 <= i < |texts|
      ensures Atoi(texts[i]) == Some(cs[i]) && NoDot(texts[i]) && texts[i] != "" && AllDigits(texts[i])
    {
      AtoiItoa(cs[i]);
    }
    YearValue(year);
    SplitDotted(year, texts);
    assert Split(b)[1..] == texts;
    ValuesAre([year] + texts, values);
    MasterIsUnparseable(b);
  }

  /** A version of the 7.x family with one more component of one digit. */
  lemma SevenMinor(d: char)
    requires IsDigit(d)
    ensures var v := "7." + [d]; Is7x(v) && Fits(v) && Components(v) == [7, (d - '0') as int]
  {
    var v := "7." + [d];
    SplitNoDot([d]);
    SplitAtDot("7", [d]);
    assert "7" + "." + [d] == v;
    Digit('7');
    Digit(d);
    var parts := ["7", [d]];
    assert Split(v) == parts && parts[1..] == [[d]];
    ValuesAre(parts, [7, (d - '0') as int]);
    assert Parse(v) == [7, (d - '0') as int];
    MasterIsUnparseable(v);
  }

  lemma Digit(d: char)
    requires IsDigit(d)
    ensures AllDigits([d]) && Atoi([d]) == Some((d - '0') as int)
  {
    assert [d][..0] == "" && ValueOf([d]) == (d - '0') as int;
  }

  function NotNegative(x: int): nat {
    if x < 0 then 0 else x
  }

  /** The components after the first, with negative ones raised to zero; at least one. */
  function Above(l: seq<int>): (cs: seq<nat>)
    ensures cs != [] && forall k: nat :: k > 0 ==> At(l, k) <= At([2029] + cs, k)
    ensures forall i :: 0 <= i < |cs| ==> cs[i] == NotNegative(At(l, i + 1))
  {
    if |l| <= 1 then [0] else seq(|l| - 1, i requires 0 <= i < |l| - 1 => NotNegative(l[i + 1]))
  }

  lemma ComponentsInRange(v: string)
    ensures forall k: nat :: At(Components(v), k) <= INT_MAX
  {
    MasterIsUnparseable(v);
    if Fits(v) {
      ValuesLength(Split(v));
      forall k: nat | k < |Components(v)| ensures Components(v)[k] <= INT_MAX { ValuesAt(Split(v), k); }
    }
  }

  lemma SevenZeroBelow(v: string)
    requires !Is7x(v) && !Is202x(v) && !Safe(Components(v))
    ensures Is7x("7.0") && Fits("7.0") && ComparePc("7.0", v) <= 0
  {
    var l := Components(v);
    SevenMinor('0');
    assert "7.0" == "7." + ['0'];
    CompareReverses(l, [7]);
    TrailingZeros([7], [0], l);
    assert [7] + [0] == [7, 0];
  }

  /** A version of the 202x family that is not below. */
  lemma YearAbove(v: string) returns (b: string)
    requires !Is7x(v) && !Is202x(v) && !Safe(Components(v))
    ensures Is202x(b) && Fits(b) && ComparePc(v, b) <= 0
  {
    var l := Components(v);
    var cs := Above(l);
    b := "2029" + Dotted(Texts(cs));
    ComponentsInRange(v);
    assert "2029"[..3] == "202" && "2029"[3] == '9';
    YearVersion("2029", cs);
    NotBoth(b);
    if At(l, 0) < 2029 {
      FirstDecides(l, [2029] + cs);
    } else {
      forall k: nat ensures At(l, k) <= At([2029] + cs, k) { if k == 0 { assert At(l, 0) == 2029; } }
      PointwiseNotAbove(l, [2029] + cs);
    }
  }

  /** Any other version between the families closes a cycle with them: a <= v <= b < a. */
  lemma OthersCycle(v: string) returns (a: string, b: string)
    requires !Is7x(v) && !Is202x(v) && !Safe(Components(v))
    ensures Is7x(a) && Fits(a) && Is202x(b) && Fits(b)
    ensures ComparePc(a, v) <= 0 && ComparePc(v, b) <= 0 && ComparePc(b, a) < 0
  {
    a := "7.0";
    SevenZeroBelow(v);
    b := YearAbove(v);
    NotBoth(a);
    NotBoth(b);
  }

  /** An overflowing 202x closes one with 8000, which lies above 7.0: 8000 <= v < 7.0 < 8000. */
  lemma OverflowCycles(v: string) returns (x: string, y: string)
    requires Is202x(v) && !Fits(v)
    ensures Ordered(x) && Ordered(y)
    ensures ComparePc(x, v) <= 0 && ComparePc(v, y) <= 0 && ComparePc(y, x) < 0
  {
    x, y := Itoa(8000), "7.0";
    NumberVersion(8000);
    SevenMinor('0');
    assert "7.0" == "7." + ['0'];
    NotBoth(v);
    NotBoth(y);
    UnparseableComponents(v);
    FirstDecides([8000], UNPARSEABLE);
    RankFirst(x);
    RankFirst(y);
    FirstDecides(Components(y), Components(x));
  }

  /** `v` fits in between any two ordered versions that have it in between. */
  ghost predicate FitsIn(v: string) {
    forall x, y :: Ordered(x) && Ordered(y) && ComparePc(x, v) <= 0 && ComparePc(v, y) <= 0 ==> ComparePc(x, y) <= 0
  }

  /**
   Exactly which versions fit into the order: all 7.x, the 202x whose components an int holds, and of
   the others those below 7 or from 2030 on. Any other version, such as 8.0, 2024 or a 202x that
   overflows, lies in a cycle with members of the order.
   */
  lemma OrderedIff(v: string)
    ensures Ordered(v) <==> FitsIn(v)
  {
    if Ordered(v) {
      forall x, y | Ordered(x) && Ordered(y) && ComparePc(x, v) <= 0 && ComparePc(v, y) <= 0
        ensures ComparePc(x, y) <= 0
      {
        PcTransitive(x, v, y);
      }
    } else {
      var x, y;
      if Is202x(v) { x, y := OverflowCycles(v); } else { x, y := OthersCycle(v); }
      NotBoth(y);
      ComparePcReverses(x, y);
    }
  }

  // ---------- the gate for projects ----------

  /**
   The 7.6 gate agrees with the order of versions except on the empty version and on every 202x,
   which the order puts below 7.6 and the gate lets through.
   */
  lemma GateAgreesIff(v: string)
    ensures (Gate(v) <==> ComparePc(v, "7.6") >= 0) <==> v != "" && !Is202x(v)
  {
    SevenMinor('6');
    assert "7.6" == "7." + ['6'];
    NotBoth("7.6");
    if v == "" {
      MasterIsUnparseable(v);
      assert Values([""][..0]) == Some([]);
      assert Components(v) == UNPARSEABLE;
      FirstDecides([7, 6], UNPARSEABLE);
      CompareReverses(UNPARSEABLE, [7, 6]);
    } else if Is202x(v) {
      NotBoth(v);
      YearFirst(v);
      FirstDecides([7, 6], Components(v));
      CompareReverses(Components(v), [7, 6]);
    }
  }
}
