/**
 * The Node backup helper (data_backup.js): every save writes one snapshot to
 * `projects_backup.json` and a copy to a timestamped `projects_<time>.json`,
 * the backups are listed newest first, and only the ten newest are kept.
 * The data directory is a map from file names to contents. The order in
 * which the directory lists its names, the time a backup name decodes to,
 * the clock and the outcome of each write are inputs.
 */
module Backup {
  import opened Js
  import opened Text

  /** A file's content as `JSON.parse` sees it. */
  datatype Content = Unparsable | Doc(doc: Json)

  const BackupFile: string := "projects_backup.json"

  const Version: string := "1.0.0"

  /** The names `getBackupFiles` lets through: `projects_` … `.json`. */
  predicate IsBackupName(name: string)
  {
    StartsWith(name, "projects_") && EndsWith(name, ".json")
  }

  /** The fixed snapshot file passes the name filter as well. */
  lemma FixedFileIsListed()
    ensures IsBackupName(BackupFile)
  {
    assert BackupFile[..9] == "projects_";
    assert BackupFile[|BackupFile| - 5..] == ".json";
  }

  function IsBackup(): string -> bool
  {
    (name: string) => IsBackupName(name)
  }

  // ---------------------------------------------------------- newest first

  /** `s` is ordered newest first by `time`. */
  predicate NewestFirst(s: seq<string>, time: string -> int)
  {
    forall i, j :: 0 <= i < j < |s| ==> time(s[i]) >= time(s[j])
  }

  /** Puts `x` before the first element that is not newer than it. */
  function Insert(x: string, s: seq<string>, time: string -> int): (r: seq<string>)
    ensures multiset(r) == multiset(s) + multiset{x}
    ensures |r| == |s| + 1
    decreases |s|
  {
    if s == [] || time(s[0]) <= time(x) then [x] + s
    else
      assert s == [s[0]] + s[1..];
      [s[0]] + Insert(x, s[1..], time)
  }

  lemma {:induction false} InsertKeepsOrder(x: string, s: seq<string>, time: string -> int)
    requires NewestFirst(s, time)
    ensures NewestFirst(Insert(x, s, time), time)
    decreases |s|
  {
    if s != [] && time(s[0]) > time(x) {
      InsertKeepsOrder(x, s[1..], time);
      var r := Insert(x, s, time);
      var tail := Insert(x, s[1..], time);
      assert r == [s[0]] + tail;
      forall k | 0 <= k < |tail| ensures time(s[0]) >= time(tail[k]) {
        assert tail[k] in multiset(tail);
        assert tail[k] == x || tail[k] in multiset(s[1..]);
        if tail[k] != x {
          var m :| 0 <= m < |s[1..]| && s[1..][m] == tail[k];
          assert s[m + 1] == tail[k];
        }
      }
    }
  }

  /** The stable sort by `timeB - timeA`. */
  function SortNewestFirst(s: seq<string>, time: string -> int): (r: seq<string>)
    ensures multiset(r) == multiset(s) && |r| == |s|
    decreases |s|
  {
    if s == [] then []
    else
      assert s == [s[0]] + s[1..];
      Insert(s[0], SortNewestFirst(s[1..], time), time)
  }

  lemma {:induction false} SortIsOrdered(s: seq<string>, time: string -> int)
    ensures NewestFirst(SortNewestFirst(s, time), time)
    decreases |s|
  {
    if s != [] {
      SortIsOrdered(s[1..], time);
      InsertKeepsOrder(s[0], SortNewestFirst(s[1..], time), time);
    }
  }

  /** No name occurs twice, as in a directory listing. */
  predicate Distinct(s: seq<string>)
  {
    forall i, j :: 0 <= i < j < |s| ==> s[i] != s[j]
  }

  lemma DistinctCons(x: string, s: seq<string>)
    requires x !in s && Distinct(s)
    ensures Distinct([x] + s)
  {
    var r := [x] + s;
    forall i, j | 0 <= i < j < |r| ensures r[i] != r[j] {
      assert r[j] == s[j - 1];
      if i > 0 {
        assert r[i] == s[i - 1];
      }
    }
  }

  lemma {:induction false} FilterDistinct(s: seq<string>, p: string -> bool)
    requires Distinct(s)
    ensures Distinct(Filter(s, p))
    decreases |s|
  {
    if s != [] {
      assert Distinct(s[1..]) by {
        forall i, j | 0 <= i < j < |s[1..]| ensures s[1..][i] != s[1..][j] {
          assert s[1..][i] == s[i + 1] && s[1..][j] == s[j + 1];
        }
      }
      FilterDistinct(s[1..], p);
      if p(s[0]) {
        assert s[0] !in s[1..] by {
          forall k | 0 <= k < |s[1..]| ensures s[1..][k] != s[0] {
            assert s[1..][k] == s[k + 1];
          }
        }
        DistinctCons(s[0], Filter(s[1..], p));
      }
    }
  }

  lemma {:induction false} InsertDistinct(x: string, s: seq<string>, time: string -> int)
    requires x !in s && Distinct(s)
    ensures Distinct(Insert(x, s, time))
    decreases |s|
  {
    if s == [] || time(s[0]) <= time(x) {
      DistinctCons(x, s);
    } else {
      assert Distinct(s[1..]) by {
        forall i, j | 0 <= i < j < |s[1..]| ensures s[1..][i] != s[1..][j] {
          assert s[1..][i] == s[i + 1] && s[1..][j] == s[j + 1];
        }
      }
      assert x !in s[1..];
      InsertDistinct(x, s[1..], time);
      var tail := Insert(x, s[1..], time);
      assert s[0] !in tail by {
        assert s[0] !in s[1..] by {
          forall k | 0 <= k < |s[1..]| ensures s[1..][k] != s[0] {
            assert s[1..][k] == s[k + 1];
          }
        }
        assert s[0] in multiset(tail) <==> s[0] in multiset(s[1..]) + multiset{x};
      }
      DistinctCons(s[0], tail);
    }
  }

  lemma {:induction false} SortDistinct(s: seq<string>, time: string -> int)
    requires Distinct(s)
    ensures Distinct(SortNewestFirst(s, time))
    decreases |s|
  {
    if s != [] {
      assert Distinct(s[1..]) by {
        forall i, j | 0 <= i < j < |s[1..]| ensures s[1..][i] != s[1..][j] {
          assert s[1..][i] == s[i + 1] && s[1..][j] == s[j + 1];
        }
      }
      SortDistinct(s[1..], time);
      var sorted := SortNewestFirst(s[1..], time);
      assert s[0] !in sorted by {
        assert s[0] !in s[1..] by {
          forall k | 0 <= k < |s[1..]| ensures s[1..][k] != s[0] {
            assert s[1..][k] == s[k + 1];
          }
        }
        assert s[0] in multiset(sorted) <==> s[0] in multiset(s[1..]);
      }
      InsertDistinct(s[0], sorted, time);
    }
  }

  /** `getBackupFiles` on the directory listing `names`, with `time` the time a name decodes to. */
  function BackupFiles(names: seq<string>, time: string -> int): seq<string>
  {
    SortNewestFirst(Filter(names, IsBackup()), time)
  }

  /** The list holds exactly the backup names of the listing, each as often, newest first. */
  lemma BackupFilesMeaning(names: seq<string>, time: string -> int)
    ensures var r := BackupFiles(names, time);
            NewestFirst(r, time)
            && multiset(r) == multiset(Filter(names, IsBackup()))
            && (forall n :: n in r <==> n in names && IsBackupName(n))
  {
    var f := Filter(names, IsBackup());
    SortIsOrdered(f, time);
    var r := BackupFiles(names, time);
    forall n ensures n in r <==> n in f {
      assert n in r <==> n in multiset(r);
      assert n in f <==> n in multiset(f);
    }
  }

  // -------------------------------------------------------------- snapshot

  /** `{...data, timestamp, version: '1.0.0'}`. */
  function Snapshot(data: Json, timestamp: string): (b: Json)
    ensures Prop(b, "version") == Some(JStr(Version)) && Prop(b, "timestamp") == Some(JStr(timestamp))
    ensures forall k :: k != "version" && k != "timestamp" ==> Prop(b, k) == Prop(data, k)
  {
    Spread(data, map["timestamp" := JStr(timestamp), "version" := JStr(Version)])
  }

  /** `iso.replace(/[:.]/g, '-')`. */
  function Dashed(iso: string): (r: string)
    ensures |r| == |iso|
    ensures forall i :: 0 <= i < |r| ==> r[i] == if iso[i] == ':' || iso[i] == '.' then '-' else iso[i]
  {
    if iso == [] then [] else [if iso[0] == ':' || iso[0] == '.' then '-' else iso[0]] + Dashed(iso[1..])
  }

  /** The timestamped file's name. */
  function StampedName(iso: string): string
  {
    "projects_" + Dashed(iso) + ".json"
  }

  /** Every timestamped copy is among the files the listing returns, so retention governs it. */
  lemma StampedIsBackup(iso: string)
    ensures IsBackupName(StampedName(iso))
    ensures ':' !in StampedName(iso)
  {
    var n := StampedName(iso);
    assert n[..9] == "projects_";
    assert n[|n| - 5..] == ".json";
    forall i | 0 <= i < |n| ensures n[i] != ':' {
      if 9 <= i < 9 + |iso| {
        assert n[i] == Dashed(iso)[i - 9];
      }
    }
  }

  /** What `loadData` reads from the directory: `JNull` when the file is missing or does not parse. */
  function Loaded(dir: map<string, Content>): (r: Json)
    ensures BackupFile !in dir ==> r == JNull
    ensures BackupFile in dir && dir[BackupFile].Unparsable? ==> r == JNull
    ensures BackupFile in dir && dir[BackupFile].Doc? ==> r == dir[BackupFile].doc
  {
    if BackupFile in dir && dir[BackupFile].Doc? then dir[BackupFile].doc else JNull
  }

  /** A snapshot that was written is read back, with its version and timestamp. */
  lemma SaveThenLoad(dir: map<string, Content>, data: Json, timestamp: string, stamped: string)
    ensures var b := Snapshot(data, timestamp);
            Loaded(dir[BackupFile := Doc(b)][StampedName(stamped) := Doc(b)]) == b
            && Prop(b, "version") == Some(JStr("1.0.0"))
  {
  }

  /** The `data` directory. */
  class DataBackup {
    var dir: map<string, Content>

    constructor (initial: map<string, Content>)
      ensures dir == initial
    {
      dir := initial;
    }

    /**
     * `saveData`: `timestamp` and `stamp` are the two clock readings (ISO
     * text) and `firstOk`, `secondOk` whether each write succeeds.
     */
    method SaveData(data: Json, timestamp: string, stamp: string, firstOk: bool, secondOk: bool) returns (ok: bool)
      modifies this
      ensures ok <==> firstOk && secondOk
      ensures !firstOk ==> dir == old(dir)
      ensures firstOk && !secondOk ==> dir == old(dir)[BackupFile := Doc(Snapshot(data, timestamp))]
      ensures ok ==> dir == old(dir)[BackupFile := Doc(Snapshot(data, timestamp))][StampedName(stamp) := Doc(Snapshot(data, timestamp))]
    {
      var b := Snapshot(data, timestamp);
      if !firstOk {
        return false;
      }
      dir := dir[BackupFile := Doc(b)];
      if !secondOk {
        return false;
      }
      dir := dir[StampedName(stamp) := Doc(b)];
      ok := true;
    }

    /** `loadData`. */
    method LoadData() returns (r: Json)
      ensures r == Loaded(dir)
    {
      if BackupFile in dir {
        match dir[BackupFile]
        case Unparsable => r := JNull;
        case Doc(d) => r := d;
      } else {
        r := JNull;
      }
    }

    /**
     * `cleanOldBackups`: `names` is the directory listing (each name of the
     * directory once) and `time` the decoded timestamp of a name. All but
     * the ten newest backups are deleted.
     */
    method CleanOldBackups(names: seq<string>, time: string -> int)
      requires forall n :: n in names <==> n in dir
      requires Distinct(names)
      modifies this
      ensures dir == Survivors(old(dir), BackupFiles(names, time))
    {
      var files := BackupFiles(names, time);
      if |files| > 10 {
        var doomed := files[10..];
        var k := 0;
        ghost var before := dir;
        while k < |doomed|
          invariant 0 <= k <= |doomed|
          invariant dir == map n | n in before && n !in doomed[..k] :: before[n]
        {
          assert doomed[..k + 1] == doomed[..k] + [doomed[k]];
          dir := dir - {doomed[k]};
          k := k + 1;
        }
        assert doomed[..|doomed|] == doomed;
      }
    }
  }

  /** The directory after deleting every backup listed after the tenth. */
  function Survivors(dir: map<string, Content>, files: seq<string>): map<string, Content>
  {
    if |files| > 10 then map n | n in dir && n !in files[10..] :: dir[n] else dir
  }

  /** After the cleanup, every remaining backup is one of the ten newest, and those ten remain. */
  lemma RetainsTenNewest(dir: map<string, Content>, names: seq<string>, time: string -> int)
    requires forall n :: n in names <==> n in dir
    requires Distinct(names)
    ensures var files := BackupFiles(names, time);
            var kept := Survivors(dir, files);
            (forall n :: n in kept && IsBackupName(n) ==> n in files[..if |files| > 10 then 10 else |files|])
            && (forall i :: 0 <= i < |files| && i < 10 ==> files[i] in kept)
            && (forall n :: n in dir && !IsBackupName(n) ==> n in kept)
  {
    SurvivorsAreNewest(dir, names, time);
    NewestSurvive(dir, names, time);
  }

  lemma SurvivorsAreNewest(dir: map<string, Content>, names: seq<string>, time: string -> int)
    requires forall n :: n in names <==> n in dir
    ensures var files := BackupFiles(names, time);
            var kept := Survivors(dir, files);
            (forall n :: n in kept && IsBackupName(n) ==> n in files[..if |files| > 10 then 10 else |files|])
            && (forall n :: n in dir && !IsBackupName(n) ==> n in kept)
  {
    var files := BackupFiles(names, time);
    BackupFilesMeaning(names, time);
    if |files| > 10 {
      forall n | n in dir && IsBackupName(n) && n !in files[10..] ensures n in files[..10] {
        assert n in files;
        var i :| 0 <= i < |files| && files[i] == n;
        assert i < 10;
        assert files[..10][i] == n;
      }
      forall n | n in dir && !IsBackupName(n) ensures n !in files[10..] {
        assert n !in files;
      }
    } else {
      assert files[..|files|] == files;
    }
  }

  lemma NewestSurvive(dir: map<string, Content>, names: seq<string>, time: string -> int)
    requires forall n :: n in names <==> n in dir
    requires Distinct(names)
    ensures var files := BackupFiles(names, time);
            forall i :: 0 <= i < |files| && i < 10 ==> files[i] in Survivors(dir, files)
  {
    var files := BackupFiles(names, time);
    BackupFilesMeaning(names, time);
    FilterDistinct(names, IsBackup());
    SortDistinct(Filter(names, IsBackup()), time);
    forall i | 0 <= i < |files| && i < 10 ensures files[i] in Survivors(dir, files) {
      assert files[i] in files;
      if |files| > 10 {
        forall k | 0 <= k < |files[10..]| ensures files[10..][k] != files[i] {
          assert files[10..][k] == files[10 + k];
        }
      }
    }
  }
}
