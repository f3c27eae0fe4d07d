/** When applying migrations in name order is applying them in version order. */
module VersionOrder {
  import opened Base
  import opened Migrate

  // ---- names that differ, and names that agree, before the underscore ----

  lemma {:induction false} LessByLast(a: string, b: string)
    requires |a| == |b| > 0
    ensures
      var (i, j) := (a[..|a| - 1], b[..|b| - 1]);
      Less(a, b) <==> Less(i, j) || (i == j && a[|a| - 1] < b[|b| - 1])
    decreases |a|
  {
    if |a| > 1 {
      var i, j := a[..|a| - 1], b[..|b| - 1];
      assert i[1..] == a[1..][..|a| - 2] && j[1..] == b[1..][..|b| - 2];
      assert i == [a[0]] + i[1..] && j == [b[0]] + j[1..];
      if a[0] == b[0] { LessByLast(a[1..], b[1..]); }
    } else {
      assert a[1..] == [] && b[1..] == [];
    }
  }

  /** Digit strings of one width compare as their values. */
  lemma {:induction false} WidthMakesValueOrder(a: string, b: string)
    requires Digits(a) && Digits(b) && |a| == |b|
    ensures Less(a, b) <==> Value(a) < Value(b)
    decreases |a|
  {
    if a != [] {
      var i, j := a[..|a| - 1], b[..|b| - 1];
      LessByLast(a, b);
      WidthMakesValueOrder(i, j);
      WidthMakesValueOrder(j, i);
      LessIsAntisymmetric(i, j);
    }
  }

  lemma {:induction false} PrefixDecides(name: string, prefix: string)
    requires Prefix(name) == Some(prefix)
    ensures |prefix| < |name| && name[..|prefix|] == prefix && name[|prefix|] == '_'
    decreases |name|
  {
    if name[0] != '_' { PrefixDecides(name[1..], prefix[1..]); }
  }

  lemma {:induction false} FirstDifferenceDecides(a: string, b: string, k: nat)
    requires k <= |a| && k <= |b| && a[..k] != b[..k]
    ensures Less(a, b) <==> Less(a[..k], b[..k])
    decreases k
  {
    if a[0] == b[0] {
      assert a[..k] == [a[0]] + a[1..][..k - 1] && b[..k] == [b[0]] + b[1..][..k - 1];
      assert a[..k][1..] == a[1..][..k - 1] && b[..k][1..] == b[1..][..k - 1];
      FirstDifferenceDecides(a[1..], b[1..], k - 1);
    }
  }

  /** After a common beginning the next characters decide. */
  lemma {:induction false} NextCharacterDecides(a: string, b: string, k: nat)
    requires k < |a| && k < |b| && a[..k] == b[..k] && a[k] != b[k]
    ensures Less(a, b) <==> a[k] < b[k]
    decreases k
  {
    if k > 0 {
      assert a[0] == a[..k][0] == b[..k][0] == b[0];
      assert a[1..][..k - 1] == a[..k][1..] && b[1..][..k - 1] == b[..k][1..];
      NextCharacterDecides(a[1..], b[1..], k - 1);
    }
  }

  /** The underscore sorts after every digit: a shorter prefix is compared with the head of the longer. */
  lemma ShorterMeetsHead(a: string, b: string, p: string, q: string)
    requires Prefix(a) == Some(p) && Prefix(b) == Some(q) && Digits(p) && Digits(q) && |p| < |q|
    ensures Less(a, b) <==> Value(p) < Value(q[..|p|])
    ensures Less(b, a) <==> !Less(a, b)
  {
    var k := |p|;
    PrefixDecides(a, p);
    PrefixDecides(b, q);
    assert b[..k] == q[..k] && b[k] == q[k];
    WidthMakesValueOrder(p, q[..k]);
    if p == q[..k] {
      NextCharacterDecides(a, b, k);
    } else {
      FirstDifferenceDecides(a, b, k);
    }
    LessIsAntisymmetric(a, b);
    assert Digit(q[k]);
  }

  lemma {:induction false} HeadIsNoLarger(q: string, k: nat)
    requires Digits(q) && k <= |q|
    ensures Value(q[..k]) <= Value(q)
    decreases |q|
  {
    if k < |q| {
      assert q[..|q| - 1][..k] == q[..k];
      HeadIsNoLarger(q[..|q| - 1], k);
      assert Digit(q[|q| - 1]);
    } else {
      assert q[..k] == q;
    }
  }

  /**
   * Digits for which name order is value order: of one width, or the smaller value below the head
   * of the longer string, or the longer string the smaller, with leading zeros. What is shut out is
   * a shorter prefix from the head of the longer one up to its value, like 9 against 10.
   */
  predicate DigitsAgree(p: string, q: string)
    requires Digits(p) && Digits(q)
  {
    if |p| == |q| then true
    else if |p| < |q| then Value(q) < Value(p) || Value(p) < Value(q[..|p|])
    else Value(p) < Value(q) || Value(q) < Value(p[..|q|])
  }

  lemma UnsignedAgreeIff(a: string, b: string, p: string, q: string)
    requires Prefix(a) == Some(p) && Prefix(b) == Some(q) && Digits(p) && Digits(q) && Value(p) != Value(q)
    ensures (Less(a, b) <==> Value(p) < Value(q)) <==> DigitsAgree(p, q)
  {
    if |p| == |q| {
      PrefixDecides(a, p);
      PrefixDecides(b, q);
      FirstDifferenceDecides(a, b, |p|);
      WidthMakesValueOrder(p, q);
    } else if |p| < |q| {
      ShorterMeetsHead(a, b, p, q);
      HeadIsNoLarger(q, |p|);
    } else {
      ShorterMeetsHead(b, a, q, p);
      HeadIsNoLarger(p, |q|);
    }
  }

  // ---- signs ----

  /** The rank of a prefix's sign in byte order: plus, minus, none. */
  function Sign(p: string): nat {
    if p != [] && p[0] == '+' then 0 else if p != [] && p[0] == '-' then 1 else 2
  }

  function Unsigned(p: string): string {
    if Sign(p) == 2 then p else p[1..]
  }

  /** What is a version: digits, with or without a sign, that fit 64 bits. */
  lemma AtoiIff(p: string)
    ensures
      var (digits, sign) := (Unsigned(p), if Sign(p) == 1 then -1 else 1);
      Atoi(p).Some? <==>
      digits != [] && Digits(digits) && -9223372036854775808 <= sign * Value(digits) <= 9223372036854775807
  {
    hide Value, Digits;
  }

  lemma AtoiReads(p: string)
    requires Atoi(p).Some?
    ensures Unsigned(p) != [] && Digits(Unsigned(p))
    ensures var value: int := Value(Unsigned(p)); Atoi(p).value == if Sign(p) == 1 then -value else value
  {
    hide Value;
  }

  /**
   * Two prefixes for which name order is version order: unsigned or plus digits in step, minus
   * digits out of step, any minus before no sign, and a plus before no sign when it is smaller.
   */
  predicate PrefixesAgree(p: string, q: string)
    requires Digits(Unsigned(p)) && Digits(Unsigned(q))
  {
    var (v, w) := (Unsigned(p), Unsigned(q));
    if Sign(p) == Sign(q) then (if Sign(p) == 1 then !DigitsAgree(v, w) else DigitsAgree(v, w))
    else if Sign(p) == 0 && Sign(q) == 2 then Value(v) < Value(w)
    else if Sign(p) == 2 && Sign(q) == 0 then Value(w) < Value(v)
    else Sign(p) == 2 || Sign(q) == 2
  }

  /** The sign comes first: the same one leaves the digits to decide, different ones decide. */
  lemma SignDecides(a: string, b: string, p: string, q: string)
    requires Prefix(a) == Some(p) && Prefix(b) == Some(q)
    requires Unsigned(p) != [] && Digits(Unsigned(p)) && Unsigned(q) != [] && Digits(Unsigned(q))
    ensures Sign(p) != Sign(q) ==> (Less(a, b) <==> Sign(p) < Sign(q))
    ensures Sign(p) == Sign(q) && Sign(p) != 2 ==>
              && (Less(a, b) <==> Less(a[1..], b[1..]))
              && Prefix(a[1..]) == Some(p[1..]) && Prefix(b[1..]) == Some(q[1..])
  {
    PrefixDecides(a, p);
    PrefixDecides(b, q);
    assert a[0] == p[0] && b[0] == q[0];
    if Sign(p) == 2 { assert Digit(p[0]); }
    if Sign(q) == 2 { assert Digit(q[0]); }
  }

  predicate Rises(a: string, b: string) {
    Version(a).Some? && Version(b).Some? && Version(a).value < Version(b).value
  }

  predicate Comparable(name: string) {
    Prefix(name).Some? && Digits(Unsigned(Prefix(name).value))
  }

  predicate NamesAgree(a: string, b: string) {
    Comparable(a) && Comparable(b) && PrefixesAgree(Prefix(a).value, Prefix(b).value)
  }

  lemma SameSignAgreeIff(a: string, b: string, p: string, q: string)
    requires Prefix(a) == Some(p) && Prefix(b) == Some(q) && Atoi(p).Some? && Atoi(q).Some? && Atoi(p) != Atoi(q)
    requires Sign(p) == Sign(q)
    ensures Digits(Unsigned(p)) && Digits(Unsigned(q))
    ensures (Less(a, b) <==> Atoi(p).value < Atoi(q).value) <==> PrefixesAgree(p, q)
  {
    AtoiReads(p);
    AtoiReads(q);
    SignDecides(a, b, p, q);
    hide Prefix, Less, Value, DigitsAgree, Atoi, Digits;
    if Sign(p) == 2 {
      UnsignedAgreeIff(a, b, p, q);
    } else {
      UnsignedAgreeIff(a[1..], b[1..], p[1..], q[1..]);
    }
  }

  lemma OtherSignAgreeIff(a: string, b: string, p: string, q: string)
    requires Prefix(a) == Some(p) && Prefix(b) == Some(q) && Atoi(p).Some? && Atoi(q).Some? && Atoi(p) != Atoi(q)
    requires Sign(p) != Sign(q)
    ensures Digits(Unsigned(p)) && Digits(Unsigned(q))
    ensures (Less(a, b) <==> Atoi(p).value < Atoi(q).value) <==> PrefixesAgree(p, q)
  {
    AtoiReads(p);
    AtoiReads(q);
    SignDecides(a, b, p, q);
    hide Prefix, Less, Value, DigitsAgree, Atoi, Digits;
  }

  /** For any two names of different versions, name order is version order exactly when their prefixes agree. */
  lemma NamesAgreeIff(a: string, b: string)
    requires Version(a).Some? && Version(b).Some? && Version(a) != Version(b)
    ensures (Less(a, b) <==> Rises(a, b)) <==> NamesAgree(a, b)
  {
    var p, q := Prefix(a).value, Prefix(b).value;
    assert Atoi(p).Some? && Atoi(q).Some? && Atoi(p) != Atoi(q);
    assert Rises(a, b) <==> Atoi(p).value < Atoi(q).value;
    hide Prefix, Less, PrefixesAgree, Atoi, Rises, Version, Digits;
    if Sign(p) == Sign(q) { SameSignAgreeIff(a, b, p, q); } else { OtherSignAgreeIff(a, b, p, q); }
  }

  // ---- runs ----

  ghost predicate Ascending(names: seq<string>) {
    forall i, j :: 0 <= i < j < |names| ==> Rises(names[i], names[j])
  }

  ghost predicate AllAgree(names: seq<string>) {
    forall i, j :: 0 <= i < j < |names| ==> NamesAgree(names[i], names[j])
  }

  lemma SortedPairRisesIff(names: seq<string>, i: nat, j: nat)
    requires InOrder(names) && i < j < Good(names)
    ensures Rises(names[i], names[j]) <==> NamesAgree(names[i], names[j])
  {
    hide Version, Good, Less, NamesAgree;
    GoodVersionsAreDistinct(names, i, j);
    LessIsAntisymmetric(names[i], names[j]);
    NamesAgreeIff(names[i], names[j]);
  }

  lemma GoodNamesAscendIff(names: seq<string>, n: nat)
    requires InOrder(names) && n <= Good(names)
    ensures Ascending(names[..n]) <==> AllAgree(names[..n])
  {
    hide Good, InOrder, Rises, NamesAgree;
    forall i, j | 0 <= i < j < n ensures Rises(names[i], names[j]) <==> NamesAgree(names[i], names[j]) {
      SortedPairRisesIff(names, i, j);
    }
    assert forall i :: 0 <= i < n ==> names[..n][i] == names[i];
  }

  /**
   * After any runs over a directory, each stopped anywhere, the scripts that have been applied went
   * up in version if and only if every two of their prefixes agree.
   */
  lemma {:induction false} RunsApplyInVersionOrderIff(entries: seq<string>, faults: seq<Option<Fault>>)
    ensures
      var committed := Runs(Sort(SqlFiles(entries)), Db(map[], []), faults).committed;
      Ascending(committed) <==> AllAgree(committed)
  {
    var names := Sort(SqlFiles(entries));
    SortSorts(SqlFiles(entries));
    assert names[..0] == [];
    var m := AppliedIsAlwaysAPrefix(names, Db(map[], []), 0, faults);
    GoodNamesAscendIff(names, m);
    hide Runs, Sort, Good, Ascending, AllAgree, AppliedBy;
  }

  lemma UndisturbedAppliesTheGood(names: seq<string>)
    ensures Runs(names, Db(map[], []), [None]).committed == names[..Good(names)]
  {
    var empty := Db(map[], []);
    assert names[..0] == [];
    var m := RunExtendsPrefix(names, empty, None, 0, |names|);
    assert Runs(names, empty, [None]) == Migrated(names, empty, None).db;
    hide Good, Upto, Runs;
  }

  lemma AgreeingApplyInOrder(names: seq<string>, faults: seq<Option<Fault>>)
    requires InOrder(names) && AllAgree(names[..Good(names)])
    ensures Ascending(Runs(names, Db(map[], []), faults).committed)
  {
    hide Good, Upto, Runs, NamesAgree, Rises, InOrder;
    assert names[..0] == [];
    var m := AppliedIsAlwaysAPrefix(names, Db(map[], []), 0, faults);
    assert forall i :: 0 <= i < m ==> names[..m][i] == names[..Good(names)][i];
    GoodNamesAscendIff(names, m);
  }

  /**
   * So a directory is one whose scripts always go up in version, wherever its runs are stopped, if
   * and only if every two prefixes agree among the files before the first that no run can apply.
   */
  lemma DirectoryAscendsIff(entries: seq<string>)
    ensures
      var names := Sort(SqlFiles(entries));
      (forall faults :: Ascending(Runs(names, Db(map[], []), faults).committed)) <==> AllAgree(names[..Good(names)])
  {
    var names, empty := Sort(SqlFiles(entries)), Db(map[], []);
    SortSorts(SqlFiles(entries));
    hide *;
    forall faults | AllAgree(names[..Good(names)]) ensures Ascending(Runs(names, empty, faults).committed) {
      AgreeingApplyInOrder(names, faults);
    }
    UndisturbedAppliesTheGood(names);
    GoodNamesAscendIff(names, Good(names));
    assert Ascending(Runs(names, empty, [None]).committed) <==> AllAgree(names[..Good(names)]);
  }

  /** A name whose version is written with this many digits and no sign. */
  predicate Wide(name: string, width: nat) {
    Prefix(name).Some? && Digits(Prefix(name).value) && |Prefix(name).value| == width && Version(name).Some?
  }

  /** With prefixes of one width, the name order is the version order. */
  lemma EqualWidthsSortByVersion(a: string, b: string, width: nat)
    requires Wide(a, width) && Wide(b, width) && Version(a) != Version(b)
    ensures Less(a, b) <==> Version(a).value < Version(b).value
  {
    var p, q := Prefix(a).value, Prefix(b).value;
    PrefixDecides(a, p);
    PrefixDecides(b, q);
    FirstDifferenceDecides(a, b, width);
    WidthMakesValueOrder(p, q);
  }

  /** ... so the sorted files of one width go up in version, and apply in version order. */
  lemma {:induction false} SortedNamesApplyInVersionOrder(names: seq<string>, width: nat, i: nat, j: nat)
    requires InOrder(names) && i < j < Good(names) && forall n :: 0 <= n < |names| ==> Wide(names[n], width)
    ensures Version(names[i]).Some? && Version(names[j]).Some? && Version(names[i]).value < Version(names[j]).value
  {
    hide Version, Good, Less, Wide;
    GoodVersionsAreDistinct(names, i, j);
    EqualWidthsSortByVersion(names[j], names[i], width);
  }

  lemma {:induction false} PrefixStops(prefix: string, rest: string)
    requires '_' !in prefix
    ensures Prefix(prefix + "_" + rest) == Some(prefix)
    decreases |prefix|
  {
    if prefix == [] {
      assert (prefix + "_" + rest)[0] == '_';
    } else {
      assert prefix[0] in prefix && prefix == [prefix[0]] + prefix[1..];
      PrefixStops(prefix[1..], rest);
      assert (prefix + "_" + rest)[1..] == prefix[1..] + "_" + rest;
      assert (prefix + "_" + rest)[0] == prefix[0];
    }
  }

  /** Without it, they need not: 10 sorts before 9. */
  lemma UnequalWidthsMissort(x: string, y: string)
    ensures Less("10_" + x, "9_" + y)
    ensures Version("10_" + x) == Some(10) && Version("9_" + y) == Some(9)
  {
    PrefixStops("10", x);
    PrefixStops("9", y);
    assert "10" + "_" + x == "10_" + x && "9" + "_" + y == "9_" + y;
    assert "10"[..1] == "1" && "1"[..0] == "" && "9"[..0] == "";
    assert Value("") == 0;
    assert Value("1") == 1 && Value("9") == 9;
    assert Value("10") == 10;
  }
}
