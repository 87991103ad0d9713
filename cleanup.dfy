/**
 * The cleanup job: for each server, which paths it asks the hosting API to
 * delete, and in which order. A server's folder listings are an input (a
 * folder missing from the map was listed as an empty body); the delete
 * requests are the output.
 */
module Cleanup {
  import opened Wrappers
  import opened Glob
  import opened Calendar
  import opened DateText
  import opened Retention

  type Path = string
  type ServerId = string

  /** What listing each folder of one server returned, by folder path; the root folder is "". */
  type Listing = map<Path, seq<Path>>

  const RootFolder: Path := ""

  /** The root-level pattern of match files. */
  const RootPattern: string := "matchzy_*_*_round*.txt"

  /** Folders whose every entry is deleted. */
  const DataFolders: seq<Path> := ["MatchZy", "MatchZyDataBackup", "MatchZy_Stats"]

  /** A log folder and the date layout of the file names in it. */
  datatype LogFolder = LogFolder(path: Path, format: DateFormat)

  /** The dated log folders, in the order the job visits them. */
  const LogFolders: seq<LogFolder> :=
    [LogFolder("/addons/counterstrikesharp/logs", Compact), LogFolder("/logs", Underscored)]

  function Listed(listing: Listing, folder: Path): seq<Path>
  {
    if folder in listing then listing[folder] else []
  }

  /** The path under which an entry of a folder is deleted. */
  function Joined(folder: Path, entry: Path): Path
  {
    folder + "/" + entry
  }

  predicate IsRoundFile(name: Path)
    ensures IsRoundFile(name) ==> 8 <= |name| && name[..8] == "matchzy_"
  {
    assert '[' !in RootPattern;
    RootPatternParts();
    PlainPrefix(name, "matchzy_", "*" + ("_" + ("*" + ("_round" + ("*" + ".txt")))));
    FnMatch(name, RootPattern)
  }

  /** The root entries that are deleted, in listing order. */
  function RootDeletes(entries: seq<Path>): (r: seq<Path>)
    ensures |r| <= |entries|
  {
    if entries == [] then []
    else
      var last := entries[|entries| - 1];
      RootDeletes(entries[..|entries| - 1]) + (if IsRoundFile(last) then [last] else [])
  }

  /** Every entry of a folder, as a path under that folder, in listing order. */
  function UnderFolder(folder: Path, entries: seq<Path>): (r: seq<Path>)
    ensures |r| == |entries|
    ensures forall i :: 0 <= i < |entries| ==> r[i] == Joined(folder, entries[i])
  {
    if entries == [] then []
    else UnderFolder(folder, entries[..|entries| - 1]) + [Joined(folder, entries[|entries| - 1])]
  }

  /** Listing order is kept: the paths of two runs of entries are the paths of the first, then of the second. */
  lemma {:induction false} UnderFolderAppend(folder: Path, a: seq<Path>, b: seq<Path>)
    ensures UnderFolder(folder, a + b) == UnderFolder(folder, a) + UnderFolder(folder, b)
  {
    var l, r := UnderFolder(folder, a + b), UnderFolder(folder, a) + UnderFolder(folder, b);
    assert |l| == |r|;
    forall i | 0 <= i < |l|
      ensures l[i] == r[i]
    {
      if i >= |a| {
        assert (a + b)[i] == b[i - |a|];
      }
    }
  }

  /** A root entry is selected exactly when it was listed and matches the pattern. */
  lemma {:induction false} RootDeletesMembers(entries: seq<Path>, p: Path)
    ensures p in RootDeletes(entries) <==> p in entries && IsRoundFile(p)
    decreases |entries|
  {
    if entries != [] {
      var init := entries[..|entries| - 1];
      RootDeletesMembers(init, p);
      assert entries == init + [entries[|entries| - 1]];
    }
  }

  /** The entries of a log folder whose date parses and is before the cutoff, in listing order. */
  function ExpiredEntries(fmt: DateFormat, entries: seq<Path>, now: int, retentionDays: int): (r: seq<Path>)
    ensures |r| <= |entries|
  {
    if entries == [] then []
    else
      var last := entries[|entries| - 1];
      ExpiredEntries(fmt, entries[..|entries| - 1], now, retentionDays)
      + (if ShouldDelete(ParseDateFromFilename(fmt, last), now, retentionDays) then [last] else [])
  }

  /** A log entry is selected exactly when it was listed and its date is past retention. */
  lemma {:induction false} ExpiredEntriesMembers(fmt: DateFormat, entries: seq<Path>, now: int, retentionDays: int, e: Path)
    ensures e in ExpiredEntries(fmt, entries, now, retentionDays)
            <==> e in entries && ShouldDelete(ParseDateFromFilename(fmt, e), now, retentionDays)
    decreases |entries|
  {
    if entries != [] {
      var init := entries[..|entries| - 1];
      ExpiredEntriesMembers(fmt, init, now, retentionDays, e);
      assert entries == init + [entries[|entries| - 1]];
    }
  }

  /** The log pass keeps listing order: selecting from two runs is selecting from each in turn. */
  lemma {:induction false} ExpiredEntriesAppend(fmt: DateFormat, a: seq<Path>, b: seq<Path>, now: int, retentionDays: int)
    ensures ExpiredEntries(fmt, a + b, now, retentionDays)
            == ExpiredEntries(fmt, a, now, retentionDays) + ExpiredEntries(fmt, b, now, retentionDays)
    decreases |b|
  {
    if b == [] {
      assert a + b == a;
    } else {
      var init, last := b[..|b| - 1], b[|b| - 1];
      var tail := if ShouldDelete(ParseDateFromFilename(fmt, last), now, retentionDays) then [last] else [];
      ExpiredEntriesAppend(fmt, a, init, now, retentionDays);
      assert (a + b)[..|a + b| - 1] == a + init;
      assert (a + b)[|a + b| - 1] == last;
      assert ExpiredEntries(fmt, a + b, now, retentionDays) == ExpiredEntries(fmt, a + init, now, retentionDays) + tail;
      assert ExpiredEntries(fmt, b, now, retentionDays) == ExpiredEntries(fmt, init, now, retentionDays) + tail;
      Associative(ExpiredEntries(fmt, a, now, retentionDays), ExpiredEntries(fmt, init, now, retentionDays), tail);
    }
  }

  lemma ExpiredEntriesStep(fmt: DateFormat, files: seq<Path>, j: nat, now: int, retentionDays: int)
    requires j < |files|
    ensures ExpiredEntries(fmt, files[..j + 1], now, retentionDays)
            == ExpiredEntries(fmt, files[..j], now, retentionDays)
               + (if ShouldDelete(ParseDateFromFilename(fmt, files[j]), now, retentionDays) then [files[j]] else [])
  {
    assert files[..j + 1][..j] == files[..j];
  }

  /** The deletes of the unconditional folders, folder after folder. */
  function DataFolderDeletes(listing: Listing, folders: seq<Path>): seq<Path>
  {
    if folders == [] then []
    else
      var f := folders[|folders| - 1];
      DataFolderDeletes(listing, folders[..|folders| - 1]) + UnderFolder(f, Listed(listing, f))
  }

  /** The deletes of the dated log folders, folder after folder. */
  function LogFolderDeletes(listing: Listing, logs: seq<LogFolder>, now: int, retentionDays: int): seq<Path>
  {
    if logs == [] then []
    else
      var lf := logs[|logs| - 1];
      LogFolderDeletes(listing, logs[..|logs| - 1], now, retentionDays)
      + UnderFolder(lf.path, ExpiredEntries(lf.format, Listed(listing, lf.path), now, retentionDays))
  }

  /** What `cleanup_for_server` deletes: root matches, then the data folders, then the log folders. */
  function ServerPlan(listing: Listing, now: int, retentionDays: int): (r: seq<Path>)
    ensures |r| == |RootDeletes(Listed(listing, RootFolder))|
                   + |Listed(listing, "MatchZy")| + |Listed(listing, "MatchZyDataBackup")| + |Listed(listing, "MatchZy_Stats")|
                   + |ExpiredEntries(Compact, Listed(listing, "/addons/counterstrikesharp/logs"), now, retentionDays)|
                   + |ExpiredEntries(Underscored, Listed(listing, "/logs"), now, retentionDays)|
  {
    DataFolderOrder(listing);
    LogFolderOrder(listing, now, retentionDays);
    RootDeletes(Listed(listing, RootFolder))
    + DataFolderDeletes(listing, DataFolders)
    + LogFolderDeletes(listing, LogFolders, now, retentionDays)
  }

  /** The round-file pattern, split at its stars. */
  lemma RootPatternParts()
    ensures RootPattern == "matchzy_" + ("*" + ("_" + ("*" + ("_round" + ("*" + ".txt")))))
    ensures IsPlain("matchzy_") && IsPlain("_") && IsPlain("_round") && IsPlain(".txt")
  {
  }

  /** Names of the shape `matchzy_<a>_<b>_round<c>.txt` are selected, whatever `a`, `b` and `c` hold. */
  lemma RoundFileOfShape(a: string, b: string, c: string)
    ensures IsRoundFile("matchzy_" + a + "_" + b + "_round" + c + ".txt")
  {
    RootPatternParts();
    var p3 := "*" + (".txt" + []);
    var p2 := "*" + ("_round" + p3);
    var p1 := "*" + ("_" + p2);
    assert ".txt" + [] == ".txt";
    var t3 := c + ".txt" + [];
    StarThenPlain(c, ".txt", [], []);
    var t2 := b + "_round" + t3;
    StarThenPlain(b, "_round", t3, p3);
    var t1 := a + "_" + t2;
    StarThenPlain(a, "_", t2, p2);
    PlainPrefix("matchzy_" + t1, "matchzy_", p1);
    assert ("matchzy_" + t1)[..8] == "matchzy_" && ("matchzy_" + t1)[8..] == t1;
    assert "matchzy_" + a + "_" + b + "_round" + c + ".txt" == "matchzy_" + t1;
  }

  /** Every selected name has the shape `matchzy_<a>_<b>_round<c>.txt`. */
  lemma ShapeOfRoundFile(name: Path) returns (a: string, b: string, c: string)
    requires IsRoundFile(name)
    ensures name == "matchzy_" + a + "_" + b + "_round" + c + ".txt"
  {
    RootPatternParts();
    var p3 := "*" + (".txt" + []);
    var p2 := "*" + ("_round" + p3);
    var p1 := "*" + ("_" + p2);
    assert ".txt" + [] == ".txt";
    var t1 := name[8..];
    assert FnMatch(t1, p1) && name == "matchzy_" + t1 by {
      PlainPrefix(name, "matchzy_", p1);
    }
    var t2, t3, t4;
    a, t2 := SplitAtStar(t1, "_", p2);
    b, t3 := SplitAtStar(t2, "_round", p3);
    c, t4 := SplitAtStar(t3, ".txt", []);
    assert t4 == [];
  }

  /** Two sample names: a round file is selected, `notes.txt` is not. */
  lemma RoundFileExamples()
    ensures IsRoundFile("matchzy_1_2_round3.txt")
    ensures !IsRoundFile("notes.txt")
  {
    RoundFileOfShape("1", "2", "3");
    assert "matchzy_" + "1" + "_" + "2" + "_round" + "3" + ".txt" == "matchzy_1_2_round3.txt";
    if IsRoundFile("notes.txt") {
      RoundFileStart("notes.txt");
    }
  }

  /** Every selected root file begins with a lower-case `m`. */
  lemma RoundFileStart(name: Path)
    requires IsRoundFile(name)
    ensures |name| > 0 && name[0] == 'm'
  {
    assert name[..8][0] == 'm';
  }

  /** Root selection keeps listing order: selecting from two runs is selecting from each in turn. */
  lemma {:induction false} RootDeletesAppend(a: seq<Path>, b: seq<Path>)
    ensures RootDeletes(a + b) == RootDeletes(a) + RootDeletes(b)
    decreases |b|
  {
    if b == [] {
      assert a + b == a;
    } else {
      var init, last := b[..|b| - 1], b[|b| - 1];
      var tail := if IsRoundFile(last) then [last] else [];
      RootDeletesAppend(a, init);
      assert (a + b)[..|a + b| - 1] == a + init;
      assert (a + b)[|a + b| - 1] == last;
      calc {
        RootDeletes(a + b);
        RootDeletes(a + init) + tail;
        RootDeletes(a) + RootDeletes(init) + tail;
        RootDeletes(a) + (RootDeletes(init) + tail);
        RootDeletes(a) + RootDeletes(b);
      }
    }
  }

  /** A path under a folder begins with the folder's name and a slash. */
  lemma UnderFolderPrefix(folder: Path, entries: seq<Path>, p: Path)
    requires p in UnderFolder(folder, entries)
    ensures |p| > |folder| && p[..|folder| + 1] == folder + "/"
  {
    var i :| 0 <= i < |entries| && UnderFolder(folder, entries)[i] == p;
    assert p == folder + "/" + entries[i];
  }

  /** An entry is requested under its folder exactly when it was listed there. */
  lemma JoinedInUnderFolder(folder: Path, entries: seq<Path>, e: Path)
    ensures Joined(folder, e) in UnderFolder(folder, entries) <==> e in entries
  {
    var u := UnderFolder(folder, entries);
    if Joined(folder, e) in u {
      var i :| 0 <= i < |u| && u[i] == Joined(folder, e);
      assert Joined(folder, e)[|folder| + 1..] == e;
      assert Joined(folder, entries[i])[|folder| + 1..] == entries[i];
    }
    if e in entries {
      var i :| 0 <= i < |entries| && entries[i] == e;
      assert u[i] == Joined(folder, e);
    }
  }

  /** Two folders whose names differ at position `k` (counting the slash) share no path. */
  lemma Separated(f1: Path, es1: seq<Path>, f2: Path, es2: seq<Path>, k: nat, p: Path)
    requires k <= |f1| && k <= |f2| && (f1 + "/")[k] != (f2 + "/")[k]
    ensures p in UnderFolder(f1, es1) ==> p !in UnderFolder(f2, es2)
  {
    if p in UnderFolder(f1, es1) {
      UnderFolderPrefix(f1, es1, p);
      assert p[k] == (f1 + "/")[k];
      if p in UnderFolder(f2, es2) {
        UnderFolderPrefix(f2, es2, p);
        assert false;
      }
    }
  }

  /** Paths under a folder not starting with `m` are never root round files. */
  lemma NotRoot(f: Path, es: seq<Path>, p: Path)
    requires (f + "/")[0] != 'm'
    ensures p in UnderFolder(f, es) ==> !IsRoundFile(p)
  {
    if p in UnderFolder(f, es) {
      UnderFolderPrefix(f, es, p);
      assert p[0] == (f + "/")[0];
      if IsRoundFile(p) {
        RoundFileStart(p);
        assert false;
      }
    }
  }

  /** Paths under a folder contain a slash. */
  lemma HasSlash(f: Path, es: seq<Path>, p: Path)
    ensures p in UnderFolder(f, es) ==> '/' in p
  {
    if p in UnderFolder(f, es) {
      UnderFolderPrefix(f, es, p);
      assert p[|f|] == '/';
    }
  }

  function LogDeletesIn(listing: Listing, i: nat, now: int, retentionDays: int): seq<Path>
    requires i < |LogFolders|
  {
    UnderFolder(LogFolders[i].path, ExpiredEntries(LogFolders[i].format, Listed(listing, LogFolders[i].path), now, retentionDays))
  }

  function DataDeletesIn(listing: Listing, i: nat): seq<Path>
    requires i < |DataFolders|
  {
    UnderFolder(DataFolders[i], Listed(listing, DataFolders[i]))
  }

  /** The data folders are emptied in the order `MatchZy`, `MatchZyDataBackup`, `MatchZy_Stats`. */
  lemma DataFolderOrder(listing: Listing)
    ensures DataFolderDeletes(listing, DataFolders)
            == DataDeletesIn(listing, 0) + DataDeletesIn(listing, 1) + DataDeletesIn(listing, 2)
  {
    var d1, d2 := DataFolders[..1], DataFolders[..2];
    assert d1[..0] == [] && d2[..1] == d1;
    assert DataFolderDeletes(listing, d1) == [] + DataDeletesIn(listing, 0);
    assert DataFolderDeletes(listing, d2) == DataFolderDeletes(listing, d1) + DataDeletesIn(listing, 1);
    assert DataFolders[..|DataFolders| - 1] == d2;
  }

  /** The counterstrikesharp logs are visited before `/logs`. */
  lemma LogFolderOrder(listing: Listing, now: int, retentionDays: int)
    ensures LogFolderDeletes(listing, LogFolders, now, retentionDays)
            == LogDeletesIn(listing, 0, now, retentionDays) + LogDeletesIn(listing, 1, now, retentionDays)
  {
    var l1 := LogFolders[..1];
    assert l1[..0] == [] && LogFolders[..|LogFolders| - 1] == l1;
    assert LogFolderDeletes(listing, l1, now, retentionDays) == [] + LogDeletesIn(listing, 0, now, retentionDays);
  }

  /**
   * The order of one server's requests: root matches, then `MatchZy`,
   * `MatchZyDataBackup`, `MatchZy_Stats`, then the two log folders, each
   * group in listing order.
   */
  lemma PlanOrder(listing: Listing, now: int, retentionDays: int)
    ensures ServerPlan(listing, now, retentionDays)
            == RootDeletes(Listed(listing, RootFolder))
               + DataDeletesIn(listing, 0) + DataDeletesIn(listing, 1) + DataDeletesIn(listing, 2)
               + LogDeletesIn(listing, 0, now, retentionDays) + LogDeletesIn(listing, 1, now, retentionDays)
  {
    DataFolderOrder(listing);
    LogFolderOrder(listing, now, retentionDays);
    Regroup(RootDeletes(Listed(listing, RootFolder)),
            DataDeletesIn(listing, 0), DataDeletesIn(listing, 1), DataDeletesIn(listing, 2),
            LogDeletesIn(listing, 0, now, retentionDays), LogDeletesIn(listing, 1, now, retentionDays));
  }

  /** A path is requested exactly when one of the six passes requests it. */
  lemma PlanMembers(listing: Listing, now: int, retentionDays: int, p: Path)
    ensures p in ServerPlan(listing, now, retentionDays)
            <==> p in RootDeletes(Listed(listing, RootFolder))
                 || p in DataDeletesIn(listing, 0) || p in DataDeletesIn(listing, 1) || p in DataDeletesIn(listing, 2)
                 || p in LogDeletesIn(listing, 0, now, retentionDays) || p in LogDeletesIn(listing, 1, now, retentionDays)
  {
    PlanOrder(listing, now, retentionDays);
    InSix(p, RootDeletes(Listed(listing, RootFolder)),
          DataDeletesIn(listing, 0), DataDeletesIn(listing, 1), DataDeletesIn(listing, 2),
          LogDeletesIn(listing, 0, now, retentionDays), LogDeletesIn(listing, 1, now, retentionDays));
  }

  /** Membership in six runs, one after another, stated on plain sequences. */
  lemma InSix<T>(x: T, r: seq<T>, d0: seq<T>, d1: seq<T>, d2: seq<T>, l0: seq<T>, l1: seq<T>)
    ensures x in r + d0 + d1 + d2 + l0 + l1 <==> x in r || x in d0 || x in d1 || x in d2 || x in l0 || x in l1
  {
  }

  /** Concatenation is associative, stated on plain sequences so no element facts come into play. */
  lemma Associative<T>(x: seq<T>, y: seq<T>, z: seq<T>)
    ensures x + y + z == x + (y + z)
  {
  }

  /** Concatenation regrouped, stated on plain sequences so no element facts come into play. */
  lemma Regroup<T>(r: seq<T>, d0: seq<T>, d1: seq<T>, d2: seq<T>, l0: seq<T>, l1: seq<T>)
    ensures r + (d0 + d1 + d2) + (l0 + l1) == r + d0 + d1 + d2 + l0 + l1
  {
  }

  /** Each listed entry yields at most one request, and each data-folder entry exactly one. */
  lemma PlanSize(listing: Listing, now: int, retentionDays: int)
    ensures |ServerPlan(listing, now, retentionDays)|
            <= |Listed(listing, RootFolder)|
               + |Listed(listing, "MatchZy")| + |Listed(listing, "MatchZyDataBackup")| + |Listed(listing, "MatchZy_Stats")|
               + |Listed(listing, "/addons/counterstrikesharp/logs")| + |Listed(listing, "/logs")|
    ensures |ServerPlan(listing, now, retentionDays)|
            >= |Listed(listing, "MatchZy")| + |Listed(listing, "MatchZyDataBackup")| + |Listed(listing, "MatchZy_Stats")|
  {
    PlanOrder(listing, now, retentionDays);
  }

  /**
   * A root file name (no slash) is requested exactly when it was listed at the
   * root and matches the round-file pattern.
   */
  lemma RootEntryDeletedIff(listing: Listing, now: int, retentionDays: int, name: Path)
    requires '/' !in name
    ensures name in ServerPlan(listing, now, retentionDays) <==> name in Listed(listing, RootFolder) && IsRoundFile(name)
  {
    PlanMembers(listing, now, retentionDays, name);
    var root := Listed(listing, RootFolder);
    RootDeletesMembers(root, name);
    var l0, l1 := LogFolders[0], LogFolders[1];
    HasSlash("MatchZy", Listed(listing, "MatchZy"), name);
    HasSlash("MatchZyDataBackup", Listed(listing, "MatchZyDataBackup"), name);
    HasSlash("MatchZy_Stats", Listed(listing, "MatchZy_Stats"), name);
    HasSlash(l0.path, ExpiredEntries(l0.format, Listed(listing, l0.path), now, retentionDays), name);
    HasSlash(l1.path, ExpiredEntries(l1.format, Listed(listing, l1.path), now, retentionDays), name);
  }

  /** Every entry listed in a data folder is requested, under that folder, and nothing else is requested there. */
  lemma DataEntryDeletedIff(listing: Listing, now: int, retentionDays: int, i: nat, e: Path)
    requires i < |DataFolders|
    ensures Joined(DataFolders[i], e) in ServerPlan(listing, now, retentionDays) <==> e in Listed(listing, DataFolders[i])
  {
    var p := Joined(DataFolders[i], e);
    PlanMembers(listing, now, retentionDays, p);
    DataEntryOutsideDataPasses(listing, now, retentionDays, i, e);
    DataEntryInOwnPass(listing, i, e);
    OtherDataFolders(listing, i, e);
    if i == 0 {
      assert p !in DataDeletesIn(listing, 1) && p !in DataDeletesIn(listing, 2);
    } else if i == 1 {
      assert p !in DataDeletesIn(listing, 0) && p !in DataDeletesIn(listing, 2);
    } else {
      assert p !in DataDeletesIn(listing, 0) && p !in DataDeletesIn(listing, 1);
    }
  }

  /** Within its own data folder's pass, `folder/e` is requested exactly when `e` was listed there. */
  lemma DataEntryInOwnPass(listing: Listing, i: nat, e: Path)
    requires i < |DataFolders|
    ensures Joined(DataFolders[i], e) in DataDeletesIn(listing, i) <==> e in Listed(listing, DataFolders[i])
  {
    JoinedInUnderFolder(DataFolders[i], Listed(listing, DataFolders[i]), e);
  }

  /** A path under a data folder is requested by neither the root pass nor a log-folder pass. */
  lemma DataEntryOutsideDataPasses(listing: Listing, now: int, retentionDays: int, i: nat, e: Path)
    requires i < |DataFolders|
    ensures Joined(DataFolders[i], e) !in RootDeletes(Listed(listing, RootFolder))
    ensures Joined(DataFolders[i], e) !in LogDeletesIn(listing, 0, now, retentionDays)
    ensures Joined(DataFolders[i], e) !in LogDeletesIn(listing, 1, now, retentionDays)
  {
    var f := DataFolders[i];
    var p := Joined(f, e);
    var l0, l1 := LogFolders[0], LogFolders[1];
    assert UnderFolder(f, [e])[0] == p;
    assert p !in RootDeletes(Listed(listing, RootFolder)) by {
      RootDeletesMembers(Listed(listing, RootFolder), p);
      NotRoot(f, [e], p);
    }
    assert p !in LogDeletesIn(listing, 0, now, retentionDays) by {
      Separated(f, [e], l0.path, ExpiredEntries(l0.format, Listed(listing, l0.path), now, retentionDays), 0, p);
    }
    assert p !in LogDeletesIn(listing, 1, now, retentionDays) by {
      Separated(f, [e], l1.path, ExpiredEntries(l1.format, Listed(listing, l1.path), now, retentionDays), 0, p);
    }
  }

  /** A path under one data folder is never one under another. */
  lemma OtherDataFolders(listing: Listing, i: nat, e: Path)
    requires i < |DataFolders|
    ensures forall j :: 0 <= j < |DataFolders| && j != i ==> Joined(DataFolders[i], e) !in DataDeletesIn(listing, j)
  {
    var f, p := DataFolders[i], Joined(DataFolders[i], e);
    assert UnderFolder(f, [e])[0] == p;
    if i != 0 {
      Separated(f, [e], DataFolders[0], Listed(listing, DataFolders[0]), 7, p);
    }
    if i != 1 {
      Separated(f, [e], DataFolders[1], Listed(listing, DataFolders[1]), 7, p);
    }
    if i != 2 {
      Separated(f, [e], DataFolders[2], Listed(listing, DataFolders[2]), 7, p);
    }
  }

  /**
   * A log-folder entry is requested exactly when it was listed there and its
   * date parses and lies before the cutoff; entries without a readable date
   * are never requested.
   */
  lemma LogEntryDeletedIff(listing: Listing, now: int, retentionDays: int, i: nat, e: Path)
    requires i < |LogFolders|
    ensures Joined(LogFolders[i].path, e) in ServerPlan(listing, now, retentionDays)
            <==> e in Listed(listing, LogFolders[i].path)
                 && ShouldDelete(ParseDateFromFilename(LogFolders[i].format, e), now, retentionDays)
  {
    var lf := LogFolders[i];
    var p := Joined(lf.path, e);
    PlanMembers(listing, now, retentionDays, p);
    LogEntryOnlyInOwnPass(listing, now, retentionDays, i, e);
    LogEntryInOwnPass(listing, now, retentionDays, i, e);
    assert p !in DataDeletesIn(listing, 0) && p !in DataDeletesIn(listing, 1) && p !in DataDeletesIn(listing, 2);
    if i == 0 {
      assert p !in LogDeletesIn(listing, 1, now, retentionDays);
    } else {
      assert p !in LogDeletesIn(listing, 0, now, retentionDays);
    }
  }

  /** Within its own log folder's pass, an entry's path is requested exactly when the entry has expired. */
  lemma LogEntryInOwnPass(listing: Listing, now: int, retentionDays: int, i: nat, e: Path)
    requires i < |LogFolders|
    ensures Joined(LogFolders[i].path, e) in LogDeletesIn(listing, i, now, retentionDays)
            <==> e in Listed(listing, LogFolders[i].path)
                 && ShouldDelete(ParseDateFromFilename(LogFolders[i].format, e), now, retentionDays)
  {
    var lf := LogFolders[i];
    JoinedInUnderFolder(lf.path, ExpiredEntries(lf.format, Listed(listing, lf.path), now, retentionDays), e);
    ExpiredEntriesMembers(lf.format, Listed(listing, lf.path), now, retentionDays, e);
  }

  /** A path under a log folder is requested by no pass but that folder's own. */
  lemma LogEntryOnlyInOwnPass(listing: Listing, now: int, retentionDays: int, i: nat, e: Path)
    requires i < |LogFolders|
    ensures Joined(LogFolders[i].path, e) !in RootDeletes(Listed(listing, RootFolder))
    ensures forall j :: 0 <= j < |DataFolders| ==> Joined(LogFolders[i].path, e) !in DataDeletesIn(listing, j)
    ensures Joined(LogFolders[i].path, e) !in LogDeletesIn(listing, 1 - i, now, retentionDays)
  {
    var lf := LogFolders[i];
    var p := Joined(lf.path, e);
    var d0, d1, d2 := DataFolders[0], DataFolders[1], DataFolders[2];
    assert UnderFolder(lf.path, [e])[0] == p;
    assert p !in RootDeletes(Listed(listing, RootFolder)) by {
      RootDeletesMembers(Listed(listing, RootFolder), p);
      NotRoot(lf.path, [e], p);
    }
    assert p !in DataDeletesIn(listing, 0) by {
      Separated(lf.path, [e], d0, Listed(listing, d0), 0, p);
    }
    assert p !in DataDeletesIn(listing, 1) by {
      Separated(lf.path, [e], d1, Listed(listing, d1), 0, p);
    }
    assert p !in DataDeletesIn(listing, 2) by {
      Separated(lf.path, [e], d2, Listed(listing, d2), 0, p);
    }
    assert p !in LogDeletesIn(listing, 1 - i, now, retentionDays) by {
      var other := LogFolders[1 - i];
      Separated(lf.path, [e], other.path, ExpiredEntries(other.format, Listed(listing, other.path), now, retentionDays), 1, p);
    }
  }

  /** `cleanup_for_server`: the delete requests for one server, in the order they are issued. */
  method CleanupForServer(listing: Listing, now: int, retentionDays: int) returns (deletes: seq<Path>)
    requires CutoffInRange(now, retentionDays)
    ensures deletes == ServerPlan(listing, now, retentionDays)
  {
    var rootDeletes := SelectRoundFiles(Listed(listing, RootFolder));
    var dataDeletes := EmptyDataFolders(listing);
    var logDeletes := SelectExpiredLogs(listing, now, retentionDays);
    deletes := rootDeletes + dataDeletes + logDeletes;
  }

  /** The root pass of `cleanup_for_server`: every listed root entry matching the round-file pattern. */
  method SelectRoundFiles(rootFiles: seq<Path>) returns (deletes: seq<Path>)
    ensures deletes == RootDeletes(rootFiles)
  {
    deletes := [];
    for i := 0 to |rootFiles|
      invariant deletes == RootDeletes(rootFiles[..i])
    {
      assert rootFiles[..i + 1][..i] == rootFiles[..i];
      if FnMatch(rootFiles[i], RootPattern) {
        deletes := deletes + [rootFiles[i]];
      }
    }
    assert rootFiles[..|rootFiles|] == rootFiles;
  }

  /** The data-folder pass of `cleanup_for_server`: every entry of every data folder. */
  method EmptyDataFolders(listing: Listing) returns (deletes: seq<Path>)
    ensures deletes == DataFolderDeletes(listing, DataFolders)
  {
    deletes := [];
    for f := 0 to |DataFolders|
      invariant deletes == DataFolderDeletes(listing, DataFolders[..f])
    {
      var folder := DataFolders[f];
      var folderDeletes := EmptyFolder(folder, Listed(listing, folder));
      assert DataFolders[..f + 1][..f] == DataFolders[..f];
      assert DataFolderDeletes(listing, DataFolders[..f + 1])
             == DataFolderDeletes(listing, DataFolders[..f]) + UnderFolder(folder, Listed(listing, folder));
      deletes := deletes + folderDeletes;
    }
    assert DataFolders[..|DataFolders|] == DataFolders;
  }

  /** One data folder: the path of every entry listed in it, in listing order. */
  method EmptyFolder(folder: Path, files: seq<Path>) returns (deletes: seq<Path>)
    ensures deletes == UnderFolder(folder, files)
  {
    deletes := [];
    for j := 0 to |files|
      invariant deletes == UnderFolder(folder, files[..j])
    {
      UnderFolderAppend(folder, files[..j], [files[j]]);
      assert files[..j + 1] == files[..j] + [files[j]];
      deletes := deletes + [Joined(folder, files[j])];
    }
    assert files[..|files|] == files;
  }

  /** The log-folder pass of `cleanup_for_server`: every log entry whose date is past retention. */
  method SelectExpiredLogs(listing: Listing, now: int, retentionDays: int) returns (deletes: seq<Path>)
    ensures deletes == LogFolderDeletes(listing, LogFolders, now, retentionDays)
  {
    deletes := [];
    for k := 0 to |LogFolders|
      invariant deletes == LogFolderDeletes(listing, LogFolders[..k], now, retentionDays)
    {
      var logFolder := LogFolders[k];
      var folderDeletes := SelectExpiredIn(logFolder, Listed(listing, logFolder.path), now, retentionDays);
      deletes := deletes + folderDeletes;
      assert LogFolders[..k + 1][..k] == LogFolders[..k];
    }
    assert LogFolders[..|LogFolders|] == LogFolders;
  }

  /** One log folder: the paths of its entries whose date parses and is before the cutoff. */
  method SelectExpiredIn(logFolder: LogFolder, files: seq<Path>, now: int, retentionDays: int)
    returns (deletes: seq<Path>)
    ensures deletes == UnderFolder(logFolder.path, ExpiredEntries(logFolder.format, files, now, retentionDays))
  {
    deletes := [];
    for j := 0 to |files|
      invariant deletes == UnderFolder(logFolder.path, ExpiredEntries(logFolder.format, files[..j], now, retentionDays))
    {
      ghost var expired := ExpiredEntries(logFolder.format, files[..j], now, retentionDays);
      var fileDate := ParseDateFromFilename(logFolder.format, files[j]);
      ExpiredEntriesStep(logFolder.format, files, j, now, retentionDays);
      if ShouldDelete(fileDate, now, retentionDays) {
        deletes := deletes + [Joined(logFolder.path, files[j])];
        UnderFolderAppend(logFolder.path, expired, [files[j]]);
      }
    }
    assert files[..|files|] == files;
  }

  /** One delete call: the server it is addressed to and the path it removes. */
  datatype DeleteRequest = DeleteRequest(server: ServerId, path: Path)

  function ListingOf(listings: map<ServerId, Listing>, server: ServerId): Listing
  {
    if server in listings then listings[server] else map[]
  }

  /** One server's deletes, addressed to that server. */
  function Addressed(server: ServerId, paths: seq<Path>): (r: seq<DeleteRequest>)
    ensures |r| == |paths|
    ensures forall i :: 0 <= i < |paths| ==> r[i] == DeleteRequest(server, paths[i])
  {
    if paths == [] then []
    else Addressed(server, paths[..|paths| - 1]) + [DeleteRequest(server, paths[|paths| - 1])]
  }

  /**
   * Addresses a server's plan path by path. `cleanup_for_server` passes the server ID to each
   * `delete_content` call as its passes go; addressing the finished plan gives the same requests.
   */
  method AddressAll(server: ServerId, paths: seq<Path>) returns (requests: seq<DeleteRequest>)
    ensures requests == Addressed(server, paths)
  {
    requests := [];
    for j := 0 to |paths|
      invariant requests == Addressed(server, paths[..j])
    {
      assert paths[..j + 1][..j] == paths[..j];
      requests := requests + [DeleteRequest(server, paths[j])];
    }
    assert paths[..|paths|] == paths;
  }

  /** Each server's requests, server after server, given what each server's plan is. */
  function Gathered(servers: seq<ServerId>, plan: ServerId -> seq<Path>): (r: seq<DeleteRequest>)
    ensures forall k :: 0 <= k < |r| ==> r[k].server in servers
  {
    if servers == [] then []
    else
      var s := servers[|servers| - 1];
      Gathered(servers[..|servers| - 1], plan) + Addressed(s, plan(s))
  }

  /** Each server's cleanup plan, given every server's listings. */
  function PlanOf(listings: map<ServerId, Listing>, now: int, retentionDays: int): ServerId -> seq<Path>
  {
    s => ServerPlan(ListingOf(listings, s), now, retentionDays)
  }

  /** What `main` requests: each configured server's plan, server after server. */
  function JobPlan(servers: seq<ServerId>, listings: map<ServerId, Listing>, now: int, retentionDays: int)
    : (r: seq<DeleteRequest>)
    ensures forall k :: 0 <= k < |r| ==> r[k].server in servers
  {
    Gathered(servers, PlanOf(listings, now, retentionDays))
  }

  /** `main`: `cleanup_for_server` for every configured server, in configured order. */
  method RunCleanup(servers: seq<ServerId>, listings: map<ServerId, Listing>, now: int, retentionDays: int)
    returns (requests: seq<DeleteRequest>)
    requires CutoffInRange(now, retentionDays)
    ensures requests == JobPlan(servers, listings, now, retentionDays)
  {
    ghost var plan := PlanOf(listings, now, retentionDays);
    requests := [];
    for i := 0 to |servers|
      invariant requests == Gathered(servers[..i], plan)
    {
      var deletes := CleanupForServer(ListingOf(listings, servers[i]), now, retentionDays);
      var addressed := AddressAll(servers[i], deletes);
      assert servers[..i + 1][..i] == servers[..i];
      assert Gathered(servers[..i + 1], plan) == Gathered(servers[..i], plan) + Addressed(servers[i], plan(servers[i]));
      requests := requests + addressed;
    }
    assert servers[..|servers|] == servers;
  }

  /** Servers are handled one after another: two runs of servers give the first's requests, then the second's. */
  lemma {:induction false} GatheredAppend(a: seq<ServerId>, b: seq<ServerId>, plan: ServerId -> seq<Path>)
    ensures Gathered(a + b, plan) == Gathered(a, plan) + Gathered(b, plan)
    decreases |b|
  {
    if b == [] {
      assert a + b == a;
    } else {
      var init, last := b[..|b| - 1], b[|b| - 1];
      var tail := Addressed(last, plan(last));
      GatheredAppend(a, init, plan);
      assert (a + b)[..|a + b| - 1] == a + init;
      assert (a + b)[|a + b| - 1] == last;
      assert Gathered(a + b, plan) == Gathered(a + init, plan) + tail;
      assert Gathered(b, plan) == Gathered(init, plan) + tail;
      Associative(Gathered(a, plan), Gathered(init, plan), tail);
    }
  }

  /** A request is made exactly when its server is configured and its path is in that server's plan. */
  lemma {:induction false} GatheredMembers(servers: seq<ServerId>, plan: ServerId -> seq<Path>, r: DeleteRequest)
    ensures r in Gathered(servers, plan) <==> r.server in servers && r.path in plan(r.server)
    decreases |servers|
  {
    if servers != [] {
      var init, last := servers[..|servers| - 1], servers[|servers| - 1];
      GatheredMembers(init, plan, r);
      assert servers == init + [last];
      var tail := Addressed(last, plan(last));
      if r in tail {
        var i :| 0 <= i < |tail| && tail[i] == r;
        assert r.server == last && r.path == plan(last)[i];
      }
      if r.server == last && r.path in plan(last) {
        var i :| 0 <= i < |plan(last)| && plan(last)[i] == r.path;
        assert tail[i] == r;
      }
    }
  }

  /** The job's requests: for configured servers only, and for each exactly its cleanup plan. */
  lemma JobPlanMembers(servers: seq<ServerId>, listings: map<ServerId, Listing>, now: int, retentionDays: int, r: DeleteRequest)
    ensures r in JobPlan(servers, listings, now, retentionDays)
            <==> r.server in servers && r.path in ServerPlan(ListingOf(listings, r.server), now, retentionDays)
  {
    GatheredMembers(servers, PlanOf(listings, now, retentionDays), r);
  }

  /** A server with nothing listed gets no delete request. */
  lemma EmptyListingPlan(now: int, retentionDays: int)
    ensures ServerPlan(map[], now, retentionDays) == []
  {
    PlanOrder(map[], now, retentionDays);
  }

  /** A server that lists only root files gets the root matches and nothing more. */
  lemma RootOnlyPlan(root: seq<Path>, now: int, retentionDays: int)
    ensures ServerPlan(map[RootFolder := root], now, retentionDays) == RootDeletes(root)
  {
    var listing := map[RootFolder := root];
    PlanOrder(listing, now, retentionDays);
    assert Listed(listing, "MatchZy") == [] && Listed(listing, "MatchZyDataBackup") == [];
    assert Listed(listing, "MatchZy_Stats") == [] && Listed(listing, "/logs") == [];
    assert Listed(listing, "/addons/counterstrikesharp/logs") == [];
  }

  /**
   * Two servers, `A` listing one round file and `notes.txt` at its root and
   * `B` listing nothing: exactly one delete request, for `A`'s round file.
   */
  lemma TwoServerExample(now: int, retentionDays: int)
    ensures JobPlan(["A", "B"], map["A" := map[RootFolder := ["matchzy_1_2_round3.txt", "notes.txt"]]], now, retentionDays)
            == [DeleteRequest("A", "matchzy_1_2_round3.txt")]
  {
    var listings := map["A" := map[RootFolder := ["matchzy_1_2_round3.txt", "notes.txt"]]];
    var plan := PlanOf(listings, now, retentionDays);
    ServerAPlan(now, retentionDays);
    ServerBPlan(now, retentionDays);
    GatheredPair("A", "B", plan);
    assert Addressed("A", plan("A")) == [DeleteRequest("A", "matchzy_1_2_round3.txt")];
  }

  lemma ServerAPlan(now: int, retentionDays: int)
    ensures PlanOf(map["A" := map[RootFolder := ["matchzy_1_2_round3.txt", "notes.txt"]]], now, retentionDays)("A")
            == ["matchzy_1_2_round3.txt"]
  {
    var rootA := ["matchzy_1_2_round3.txt", "notes.txt"];
    assert RootDeletes(rootA) == ["matchzy_1_2_round3.txt"] by {
      RoundFileExamples();
      assert rootA[..1][..0] == [] && rootA[..|rootA| - 1] == rootA[..1];
    }
    RootOnlyPlan(rootA, now, retentionDays);
  }

  lemma ServerBPlan(now: int, retentionDays: int)
    ensures PlanOf(map["A" := map[RootFolder := ["matchzy_1_2_round3.txt", "notes.txt"]]], now, retentionDays)("B") == []
  {
    EmptyListingPlan(now, retentionDays);
  }

  lemma GatheredPair(a: ServerId, b: ServerId, plan: ServerId -> seq<Path>)
    ensures Gathered([a, b], plan) == Addressed(a, plan(a)) + Addressed(b, plan(b))
  {
    var servers := [a, b];
    assert servers[..1][..0] == [] && servers[..|servers| - 1] == servers[..1];
    assert Gathered(servers[..1], plan) == [] + Addressed(a, plan(a));
    assert Gathered(servers, plan) == Gathered(servers[..1], plan) + Addressed(b, plan(b));
  }
}
