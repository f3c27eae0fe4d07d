/** The migration runner: scripts in name order, each in its own transaction, over runs that may stop anywhere. */
module Migrate {
  import opened Base

  // ---- file names ----

  /** Byte order on strings, which is how the names are sorted. */
  predicate Less(a: string, b: string) {
    b != [] && (a == [] || a[0] < b[0] || (a[0] == b[0] && Less(a[1..], b[1..])))
  }

  ghost predicate InOrder(names: seq<string>) {
    forall i, j :: 0 <= i < j < |names| ==> !Less(names[j], names[i])
  }

  function Insert(name: string, names: seq<string>): seq<string> {
    if names == [] || !Less(names[0], name) then [name] + names else [names[0]] + Insert(name, names[1..])
  }

  function Sort(names: seq<string>): seq<string> {
    if names == [] then [] else Insert(names[0], Sort(names[1..]))
  }

  predicate IsSql(name: string) {
    |name| >= 4 && name[|name| - 4..] == ".sql"
  }

  function SqlFiles(entries: seq<string>): seq<string> {
    if entries == [] then []
    else SqlFiles(entries[..|entries| - 1]) + if IsSql(entries[|entries| - 1]) then [entries[|entries| - 1]] else []
  }

  lemma {:induction false} LessIsAntisymmetric(a: string, b: string)
    ensures !(Less(a, b) && Less(b, a))
    ensures !Less(a, b) && !Less(b, a) ==> a == b
    decreases |a|
  {
    if a != [] && b != [] && a[0] == b[0] {
      LessIsAntisymmetric(a[1..], b[1..]);
      assert a == [a[0]] + a[1..] && b == [b[0]] + b[1..];
    }
  }

  lemma {:induction false} LessIsTransitive(a: string, b: string, c: string)
    requires Less(a, b) && Less(b, c)
    ensures Less(a, c)
    decreases |a|
  {
    if a != [] && a[0] == b[0] && b[0] == c[0] { LessIsTransitive(a[1..], b[1..], c[1..]); }
  }

  lemma {:induction false} InsertKeepsOrder(name: string, names: seq<string>)
    requires InOrder(names)
    ensures InOrder(Insert(name, names)) && multiset(Insert(name, names)) == multiset(names) + multiset{name}
  {
    var r := Insert(name, names);
    if names != [] && Less(names[0], name) {
      assert InOrder(names[1..]);
      InsertKeepsOrder(name, names[1..]);
      assert names == [names[0]] + names[1..];
      LessIsAntisymmetric(names[0], name);
      forall j | 0 < j < |r| ensures !Less(r[j], r[0]) {
        assert r[j] in multiset(r[1..]);
        if r[j] != name {
          assert r[j] in names[1..];
          var k :| 0 <= k < |names[1..]| && names[1..][k] == r[j];
          assert names[k + 1] == r[j];
        }
      }
    } else {
      forall j | 0 < j < |r| ensures !Less(r[j], r[0]) {
        if Less(names[j - 1], name) {
          if j == 1 {
          } else {
            assert !Less(names[j - 1], names[0]);
            LessIsAntisymmetric(names[j - 1], names[0]);
            if Less(names[0], names[j - 1]) { LessIsTransitive(names[0], names[j - 1], name); }
          }
        }
      }
    }
  }

  lemma {:induction false} SortSorts(names: seq<string>)
    ensures InOrder(Sort(names)) && multiset(Sort(names)) == multiset(names)
  {
    if names != [] {
      SortSorts(names[1..]);
      InsertKeepsOrder(names[0], Sort(names[1..]));
      assert names == [names[0]] + names[1..];
    }
  }

  lemma {:induction false} SqlFilesAre(entries: seq<string>, name: string)
    ensures
      multiset(SqlFiles(entries))[name] ==
      if |name| >= 4 && name[|name| - 4..] == ['.', 's', 'q', 'l'] then multiset(entries)[name] else 0
    decreases |entries|
  {
    if entries != [] {
      SqlFilesAre(entries[..|entries| - 1], name);
      assert entries == entries[..|entries| - 1] + [entries[|entries| - 1]];
    }
  }

  /** What is sorted and applied is every entry that ends in .sql, as often as it is there, and no other. */
  lemma ScriptsAreTheSqlFiles(entries: seq<string>, name: string)
    ensures
      multiset(Sort(SqlFiles(entries)))[name] ==
      if |name| >= 4 && name[|name| - 4..] == ['.', 's', 'q', 'l'] then multiset(entries)[name] else 0
  {
    SortSorts(SqlFiles(entries));
    SqlFilesAre(entries, name);
    hide Sort, SqlFiles;
  }

  // ---- versions ----

  predicate Digit(c: char) {
    '0' <= c <= '9'
  }

  predicate Digits(s: string) {
    forall i :: 0 <= i < |s| ==> Digit(s[i])
  }

  function Value(s: string): nat
    requires Digits(s)
  {
    if s == [] then 0 else 10 * Value(s[..|s| - 1]) + (s[|s| - 1] as int - '0' as int)
  }

  const MAX_INT64 := 0x7fff_ffff_ffff_ffff
  const MAX_INT32 := 0x7fff_ffff

  /** strconv.Atoi: an optional sign, at least one digit, within 64 bits. */
  function Atoi(s: string): Option<int> {
    var digits := if s != [] && (s[0] == '+' || s[0] == '-') then s[1..] else s;
    if digits == [] || !Digits(digits) then None
    else
      var value: int := Value(digits);
      var n := if s[0] == '-' then -value else value;
      if -MAX_INT64 - 1 <= n <= MAX_INT64 then Some(n) else None
  }

  /** What precedes the first underscore; nothing when there is none. */
  function Prefix(name: string): Option<string> {
    if name == [] then None
    else if name[0] == '_' then Some([])
    else
      var rest := Prefix(name[1..]);
      if rest.Some? then Some([name[0]] + rest.value) else None
  }

  function Version(name: string): Option<int> {
    var prefix := Prefix(name);
    if prefix.None? then None else Atoi(prefix.value)
  }

  // ---- one run ----

  /** schema_migrations, and the scripts whose transactions committed, in order. */
  datatype Db = Db(applied: map<int, string>, committed: seq<string>)

  /**
   * Where the connection fails, counting a run's statements; when that is a commit, it may have
   * landed all the same.
   */
  datatype Fault = Fault(at: nat, landed: bool)

  datatype Failure = BadName | DuplicateVersion | Stopped

  /** A run so far: what it has done, how many statements it has issued, and why it ended. */
  datatype Progress = Progress(db: Db, at: nat, failure: Option<Failure>)

  /** The lock and the CREATE TABLE IF NOT EXISTS come first. */
  const SETUP: nat := 2

  function Begun(db: Db, fault: Option<Fault>): Progress {
    Progress(db, SETUP, if fault.Some? && fault.value.at < SETUP then Some(Stopped) else None)
  }

  predicate Seen(names: seq<string>, version: int) {
    exists j :: 0 <= j < |names| && Version(names[j]) == Some(version)
  }

  function Record(db: Db, version: int, name: string): Db {
    Db(db.applied[version := name], db.committed + [name])
  }

  predicate FailsBy(fault: Option<Fault>, at: nat) {
    fault.Some? && fault.value.at <= at
  }

  /** One file: the check, and if it is pending begin, script, record and commit. */
  function Applying(version: int, name: string, p: Progress, fault: Option<Fault>): Progress {
    if FailsBy(fault, p.at) || !(-MAX_INT32 - 1 <= version <= MAX_INT32) then p.(failure := Some(Stopped))
    else if version in p.db.applied then p.(at := p.at + 1)
    else if FailsBy(fault, p.at + 3) then p.(failure := Some(Stopped))
    else if FailsBy(fault, p.at + 4) then
      p.(db := if fault.value.landed then Record(p.db, version, name) else p.db, failure := Some(Stopped))
    else Progress(Record(p.db, version, name), p.at + 5, None)
  }

  /** ... after the name and the versions of the files before it have been looked at. */
  function Advanced(before: seq<string>, name: string, p: Progress, fault: Option<Fault>): Progress {
    var version := Version(name);
    if version.None? then p.(failure := Some(BadName))
    else if Seen(before, version.value) then p.(failure := Some(DuplicateVersion))
    else Applying(version.value, name, p, fault)
  }

  function Upto(names: seq<string>, db: Db, fault: Option<Fault>, i: nat): Progress
    requires i <= |names|
  {
    if i == 0 then Begun(db, fault)
    else
      var p := Upto(names, db, fault, i - 1);
      if p.failure.Some? then p else Advanced(names[..i - 1], names[i - 1], p, fault)
  }

  function Migrated(names: seq<string>, db: Db, fault: Option<Fault>): Progress {
    Upto(names, db, fault, |names|)
  }

  /** The .sql files of the embedded directory, sorted by name. */
  method Scripts(entries: seq<string>) returns (names: seq<string>)
    ensures names == Sort(SqlFiles(entries))
  {
    names := [];
    for i := 0 to |entries|
      invariant names == SqlFiles(entries[..i])
    {
      assert entries[..i + 1][..i] == entries[..i];
      if IsSql(entries[i]) { names := names + [entries[i]]; }
    }
    assert entries[..|entries|] == entries;
    names := Sort(names);
  }

  class Migrator {
    var applied: map<int, string>
    var committed: seq<string>

    function View(): Db reads this {
      Db(applied, committed)
    }

    constructor ()
      ensures View() == Db(map[], [])
    {
      applied, committed := map[], [];
    }

    /** The script's effects and its schema_migrations row, together. */
    method Commit(version: int, name: string)
      modifies this
      ensures View() == Record(old(View()), version, name)
    {
      applied, committed := applied[version := name], committed + [name];
    }

    method Apply(
      version: int, name: string, at: nat, fault: Option<Fault>) returns (next: nat, failure: Option<Failure>)
      modifies this
      ensures Applying(version, name, Progress(old(View()), at, None), fault) == Progress(View(), next, failure)
    {
      next, failure := at, Some(Stopped);
      if FailsBy(fault, at) || !(-MAX_INT32 - 1 <= version <= MAX_INT32) {
        return;
      }
      if version in applied {
        return at + 1, None;
      }
      if FailsBy(fault, at + 3) {
        return;
      }
      if FailsBy(fault, at + 4) {
        if fault.value.landed { Commit(version, name); }
        return;
      }
      Commit(version, name);
      return at + 5, None;
    }

    method Migrate(entries: seq<string>, fault: Option<Fault>) returns (failure: Option<Failure>)
      modifies this
      ensures
        var run := Migrated(Sort(SqlFiles(entries)), old(View()), fault);
        View() == run.db && failure == run.failure
    {
      var names := Scripts(entries);
      assert names[..0] == [] && Tracks(map[], []);
      assert Upto(names, View(), fault, 0) == Begun(View(), fault);
      hide Version, Seen, Sort, SqlFiles, Upto, Record, Tracks, Applying, FailsBy;
      var at: nat := SETUP;
      if fault.Some? && fault.value.at < SETUP {
        UptoStops(names, View(), fault, 0, |names|);
        return Some(Stopped);
      }
      var versions: map<int, string> := map[];
      for i := 0 to |names|
        invariant Upto(names, old(View()), fault, i) == Progress(View(), at, None)
        invariant Tracks(versions, names[..i])
      {
        var name := names[i];
        var version := Version(name);
        UptoAdvances(names, old(View()), fault, i);
        UptoStops(names, old(View()), fault, i + 1, |names|);
        TracksNext(versions, names, i);
        if version.None? {
          return Some(BadName);
        }
        if version.value in versions {
          return Some(DuplicateVersion);
        }
        versions := versions[version.value := name];
        at, failure := Apply(version.value, name, at, fault);
        if failure.Some? {
          return;
        }
      }
      return None;
    }
  }

  lemma SeenGrows(names: seq<string>, name: string)
    requires Version(name).Some?
    ensures forall v :: Seen(names + [name], v) <==> Seen(names, v) || v == Version(name).value
  {
    forall v ensures Seen(names + [name], v) <==> Seen(names, v) || v == Version(name).value {
      if Seen(names, v) {
        var j :| 0 <= j < |names| && Version(names[j]) == Some(v);
        assert (names + [name])[j] == names[j];
      }
      if v == Version(name).value { assert (names + [name])[|names|] == name; }
    }
  }

  /** The map of a run's versions holds those of the files it has come past. */
  ghost predicate Tracks(versions: map<int, string>, names: seq<string>) {
    forall v :: v in versions <==> Seen(names, v)
  }

  lemma TracksNext(versions: map<int, string>, names: seq<string>, i: nat)
    requires i < |names| && Tracks(versions, names[..i])
    ensures
      var version := Version(names[i]);
      version.Some? ==>
        (version.value in versions <==> Seen(names[..i], version.value)) &&
        Tracks(versions[version.value := names[i]], names[..i + 1])
  {
    assert names[..i + 1] == names[..i] + [names[i]];
    if Version(names[i]).Some? { SeenGrows(names[..i], names[i]); }
    hide Version, Seen;
  }

  lemma UptoAdvances(names: seq<string>, db: Db, fault: Option<Fault>, i: nat)
    requires i < |names| && Upto(names, db, fault, i).failure.None?
    ensures Upto(names, db, fault, i + 1) == Advanced(names[..i], names[i], Upto(names, db, fault, i), fault)
  {
    hide Advanced;
  }

  /** A run that has failed goes no further. */
  lemma {:induction false} UptoStops(names: seq<string>, db: Db, fault: Option<Fault>, i: nat, n: nat)
    requires i <= n <= |names|
    ensures Upto(names, db, fault, i).failure.Some? ==> Upto(names, db, fault, n) == Upto(names, db, fault, i)
    decreases n
  {
    if i < n { UptoStops(names, db, fault, i, n - 1); }
  }

  // ---- any number of runs ----

  predicate GoodNext(before: seq<string>, name: string) {
    var version := Version(name);
    version.Some? && !Seen(before, version.value) && -MAX_INT32 - 1 <= version.value <= MAX_INT32
  }

  /** How many files, in order, come before the first one no run can apply. */
  function Good(names: seq<string>): (n: nat)
    ensures n <= |names|
  {
    if names == [] then 0
    else
      var m := Good(names[..|names| - 1]);
      if m == |names| - 1 && GoodNext(names[..|names| - 1], names[|names| - 1]) then |names| else m
  }

  lemma {:induction false} GoodPrefix(names: seq<string>, i: nat)
    requires i < |names|
    ensures i < Good(names) ==> GoodNext(names[..i], names[i])
    ensures i == Good(names) ==> !GoodNext(names[..i], names[i])
  {
    var shorter := names[..|names| - 1];
    if i < |names| - 1 {
      GoodPrefix(shorter, i);
      assert shorter[..i] == names[..i];
    }
  }

  /** What schema_migrations holds when exactly these files have been applied. */
  function AppliedBy(names: seq<string>): map<int, string> {
    if names == [] then map[]
    else
      var last := names[|names| - 1];
      var rest := AppliedBy(names[..|names| - 1]);
      if Version(last).Some? then rest[Version(last).value := last] else rest
  }

  /** The first n files are applied, and committed once each, in order; nothing else is. */
  ghost predicate Done(names: seq<string>, db: Db, n: nat) {
    n <= |names| && db.committed == names[..n] && db.applied == AppliedBy(names[..n])
  }

  lemma {:induction false} AppliedAreSeen(names: seq<string>)
    ensures forall v :: v in AppliedBy(names) <==> Seen(names, v)
  {
    if names != [] {
      var last := names[|names| - 1];
      AppliedAreSeen(names[..|names| - 1]);
      assert names == names[..|names| - 1] + [last];
      if Version(last).Some? {
        SeenGrows(names[..|names| - 1], last);
      } else {
        UnversionedUnseen(names[..|names| - 1], last);
      }
    }
  }

  lemma UnversionedUnseen(names: seq<string>, name: string)
    requires Version(name).None?
    ensures forall v :: Seen(names + [name], v) <==> Seen(names, v)
  {
    forall v ensures Seen(names + [name], v) <==> Seen(names, v) {
      if Seen(names, v) {
        var j :| 0 <= j < |names| && Version(names[j]) == Some(v);
        assert (names + [name])[j] == names[j];
      }
    }
  }

  /** A file already applied is passed over. */
  lemma AdvanceApplied(names: seq<string>, p: Progress, fault: Option<Fault>, n: nat, i: nat)
    requires i < n <= Good(names) && Done(names, p.db, n)
    ensures
      var q := Advanced(names[..i], names[i], p, fault);
      q.db == p.db && (p.failure.None? && fault.None? ==> q.failure.None?)
  {
    GoodPrefix(names, i);
    AppliedAreSeen(names[..n]);
    assert names[..n][i] == names[i];
    assert Version(names[i]).Some? && Version(names[i]).value in p.db.applied by {
      assert Seen(names[..n], Version(names[i]).value);
    }
    hide Version, Seen, AppliedBy, Good, Done;
  }

  lemma AppliedByNext(names: seq<string>, name: string)
    requires Version(name).Some?
    ensures AppliedBy(names + [name]) == AppliedBy(names)[Version(name).value := name]
  {
    assert (names + [name])[..|names|] == names;
    hide Version;
  }

  lemma RecordDone(names: seq<string>, db: Db, n: nat)
    requires n < |names| && Done(names, db, n) && Version(names[n]).Some?
    ensures Done(names, Record(db, Version(names[n]).value, names[n]), n + 1)
  {
    assert names[..n + 1] == names[..n] + [names[n]];
    AppliedByNext(names[..n], names[n]);
    hide Version, AppliedBy;
  }

  /** The bad name, the repeated version and the version out of range, where no run goes further. */
  lemma AdvanceBad(names: seq<string>, p: Progress, fault: Option<Fault>, n: nat)
    requires n < |names| && !GoodNext(names[..n], names[n]) && p.failure.None?
    ensures var q := Advanced(names[..n], names[n], p, fault); q.db == p.db && q.failure.Some?
  {
    hide Version, Seen;
  }

  /** A pending file: recorded by its commit, or by none of its statements. */
  lemma ApplyPending(version: int, name: string, p: Progress, fault: Option<Fault>)
    requires version !in p.db.applied && p.failure.None? && -MAX_INT32 - 1 <= version <= MAX_INT32
    ensures
      var q := Applying(version, name, p, fault);
      && (q.db == p.db || q.db == Record(p.db, version, name))
      && (q.failure.None? ==> q.db == Record(p.db, version, name))
      && (fault.None? ==> q.failure.None?)
  {
    hide Record;
  }

  lemma GoodIsPending(names: seq<string>, db: Db, n: nat)
    requires n < |names| && Done(names, db, n) && GoodNext(names[..n], names[n])
    ensures Version(names[n]).value !in db.applied
  {
    AppliedAreSeen(names[..n]);
    hide Version, Seen, AppliedBy;
  }

  lemma AdvancedIsApplying(names: seq<string>, p: Progress, fault: Option<Fault>, n: nat)
    requires n < |names| && GoodNext(names[..n], names[n])
    ensures Advanced(names[..n], names[n], p, fault) == Applying(Version(names[n]).value, names[n], p, fault)
  {
    hide Version, Seen, Applying;
  }

  /** The next file is applied, or the run ends; it can be applied exactly when it is good. */
  lemma AdvancePending(names: seq<string>, p: Progress, fault: Option<Fault>, n: nat)
    requires n < |names| && n <= Good(names) && Done(names, p.db, n) && p.failure.None?
    ensures
      var q := Advanced(names[..n], names[n], p, fault);
      && (q.db == p.db || (Done(names, q.db, n + 1) && n < Good(names)))
      && (q.failure.None? ==> Done(names, q.db, n + 1) && n < Good(names))
      && (fault.None? ==> (q.failure.None? <==> n < Good(names)))
  {
    GoodPrefix(names, n);
    if n < Good(names) {
      var version := Version(names[n]).value;
      GoodIsPending(names, p.db, n);
      AdvancedIsApplying(names, p, fault, n);
      ApplyPending(version, names[n], p, fault);
      RecordDone(names, p.db, n);
    } else {
      AdvanceBad(names, p, fault, n);
    }
    hide Version, Seen, Good, Record, Done, Advanced, Applying;
  }

  /** A run leaves a longer prefix applied; without a failure, at least as far as it has come. */
  lemma {:induction false} RunExtendsPrefix(
    names: seq<string>, db: Db, fault: Option<Fault>, n: nat, i: nat) returns (m: nat)
    requires n <= Good(names) && Done(names, db, n) && i <= |names|
    ensures
      var p := Upto(names, db, fault, i);
      && n <= m <= Good(names) && Done(names, p.db, m)
      && (p.failure.None? ==> m == (if i < n then n else i))
      && (fault.None? ==> (p.failure.None? <==> i <= Good(names)))
      && (fault.None? && i >= Good(names) ==> m == Good(names))
  {
    hide Advanced, Good, Done;
    m := n;
    if i > 0 {
      m := RunExtendsPrefix(names, db, fault, n, i - 1);
      var p := Upto(names, db, fault, i - 1);
      if p.failure.None? {
        if i - 1 < n {
          AdvanceApplied(names, p, fault, n, i - 1);
        } else {
          AdvancePending(names, p, fault, m);
          if Upto(names, db, fault, i).db != p.db || Upto(names, db, fault, i).failure.None? { m := m + 1; }
        }
      }
    }
  }

  /** Any sequence of runs over the same files, each stopped wherever it is. */
  function Runs(names: seq<string>, db: Db, faults: seq<Option<Fault>>): Db
    decreases |faults|
  {
    if faults == [] then db else Runs(names, Migrated(names, db, faults[0]).db, faults[1..])
  }

  /**
   * Migration is resumable. After any sequence of runs, each stopped at any statement, the applied
   * versions are those of a prefix of the sorted files, and each of those scripts has committed
   * exactly once, in order.
   */
  lemma {:induction false} AppliedIsAlwaysAPrefix(
    names: seq<string>, db: Db, n: nat, faults: seq<Option<Fault>>) returns (m: nat)
    requires n <= Good(names) && Done(names, db, n)
    ensures n <= m <= Good(names) && Done(names, Runs(names, db, faults), m)
    decreases |faults|
  {
    m := n;
    if faults != [] {
      var k := RunExtendsPrefix(names, db, faults[0], n, |names|);
      m := AppliedIsAlwaysAPrefix(names, Migrated(names, db, faults[0]).db, k, faults[1..]);
    }
  }

  /** A prefix that runs can apply has no version twice, so committing it in order is committing each script once. */
  lemma {:induction false} GoodVersionsAreDistinct(names: seq<string>, i: nat, j: nat)
    requires i < j < Good(names)
    ensures Version(names[i]).Some? && Version(names[j]).Some? && Version(names[i]) != Version(names[j])
    ensures names[i] != names[j]
  {
    GoodPrefix(names, i);
    GoodPrefix(names, j);
    assert names[..j][i] == names[i];
    assert Version(names[i]).Some?;
  }

  /** An undisturbed run completes exactly when every file can be applied, wherever earlier runs stopped. */
  lemma {:induction false} UndisturbedRunCompletes(names: seq<string>, db: Db, n: nat)
    requires n <= Good(names) && Done(names, db, n)
    ensures
      var run := Migrated(names, db, None);
      && (run.failure.None? <==> Good(names) == |names|)
      && (run.failure.None? ==> Done(names, run.db, |names|))
  {
    var m := RunExtendsPrefix(names, db, None, n, |names|);
  }

  /** Once a run has completed, every later run changes nothing, stopped or not. */
  lemma CompletedRunIsFinal(names: seq<string>, db: Db, n: nat, fault: Option<Fault>, faults: seq<Option<Fault>>)
    requires n <= Good(names) && Done(names, db, n) && Migrated(names, db, fault).failure.None?
    ensures Runs(names, Migrated(names, db, fault).db, faults) == Migrated(names, db, fault).db
  {
    var done := Migrated(names, db, fault).db;
    var m := RunExtendsPrefix(names, db, fault, n, |names|);
    var k := AppliedIsAlwaysAPrefix(names, done, m, faults);
    assert m == |names| && k == |names|;
    hide Runs, Upto, AppliedBy, Good;
  }

  // ---- why a run stops ----

  /** What a run holds against a file: no version, one an earlier file has, or one the table cannot hold. */
  ghost function Objection(names: seq<string>, i: nat): Option<Failure>
    requires i < |names|
  {
    var version := Version(names[i]);
    if version.None? then Some(BadName)
    else if exists j :: 0 <= j < i && Version(names[j]) == version then Some(DuplicateVersion)
    else if version.value < -2147483648 || version.value > 2147483647 then Some(Stopped)
    else None
  }

  lemma ObjectionIff(names: seq<string>, i: nat)
    requires i < |names|
    ensures Objection(names, i).None? <==> GoodNext(names[..i], names[i])
    ensures Version(names[i]).Some? ==>
              (Seen(names[..i], Version(names[i]).value) <==>
               exists j :: 0 <= j < i && Version(names[j]) == Version(names[i]))
  {
    var version := Version(names[i]);
    hide Version;
    if version.Some? {
      if j :| 0 <= j < i && Version(names[j]) == version { assert names[..i][j] == names[j]; }
      if Seen(names[..i], version.value) {
        var j :| 0 <= j < |names[..i]| && Version(names[..i][j]) == Some(version.value);
        assert names[..i][j] == names[j];
      }
    }
  }

  /**
   * An undisturbed run, wherever earlier ones stopped, ends without a failure when nothing is held
   * against any file, and otherwise with what is held against the first one there is.
   */
  lemma UndisturbedRunSaysWhy(names: seq<string>, db: Db, n: nat)
    requires n <= Good(names) && Done(names, db, n)
    ensures forall i :: 0 <= i < Good(names) ==> Objection(names, i).None?
    ensures Migrated(names, db, None).failure ==
            if Good(names) == |names| then None else Objection(names, Good(names))
    ensures Good(names) < |names| ==> Objection(names, Good(names)).Some?
  {
    var g := Good(names);
    forall i | 0 <= i < g ensures Objection(names, i).None? {
      GoodPrefix(names, i);
      ObjectionIff(names, i);
    }
    var m := RunExtendsPrefix(names, db, None, n, g);
    if g < |names| {
      GoodPrefix(names, g);
      ObjectionIff(names, g);
    }
    hide *;
    if g < |names| { StopsAtTheFirst(names, db, g); }
    assert Migrated(names, db, None) == Upto(names, db, None, |names|) by { MigratedIsAll(names, db); }
  }

  lemma MigratedIsAll(names: seq<string>, db: Db)
    ensures Migrated(names, db, None) == Upto(names, db, None, |names|)
  {
  }

  lemma StopsAtTheFirst(names: seq<string>, db: Db, i: nat)
    requires i < |names| && Upto(names, db, None, i).failure.None? && Objection(names, i).Some?
    ensures Upto(names, db, None, |names|).failure == Objection(names, i)
  {
    UptoAdvances(names, db, None, i);
    AdvancedObjects(names, Upto(names, db, None, i), i);
    hide *;
    UptoStops(names, db, None, i + 1, |names|);
  }

  lemma AdvancedObjects(names: seq<string>, p: Progress, i: nat)
    requires i < |names| && Objection(names, i).Some?
    ensures Advanced(names[..i], names[i], p, None).failure == Objection(names, i)
  {
    ObjectionIff(names, i);
    hide Version, Seen;
  }
}
