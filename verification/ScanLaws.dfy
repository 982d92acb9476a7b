/** What the stat loop guarantees about the entries it finds. */
module ScanLaws {
  import opened Sums
  import opened LogFiles
  import opened Policies
  import opened Ranking
  import Docker
  import opened Cleanup

  function ProbeWrites(probes: seq<Probe>): seq<Append>
    decreases |probes|
  {
    if |probes| == 0 then [] else ProbeWrites(probes[..|probes| - 1]) + probes[|probes| - 1].tick.writes
  }

  /** Every discovered path ends up as one entry or one stat error; files only receive appends. */
  lemma {:induction false} ScanCounts(cfg: Config, paths: seq<Path>, probes: seq<Probe>, s: Scan)
    requires |probes| <= |paths|
    requires s.entries == [] && s.errors == []
    ensures var r := ScanAll(cfg, paths, probes, s);
      && |r.entries| + |r.errors| == |probes|
      && (forall i :: 0 <= i < |r.errors| ==> r.errors[i].phase == STAT)
      && r.files == WrittenAll(s.files, ProbeWrites(probes))
    decreases |probes|
  {
    if |probes| > 0 {
      var n := |probes| - 1;
      ScanCounts(cfg, paths, probes[..n], s);
      WrittenAllConcat(s.files, ProbeWrites(probes[..n]), probes[n].tick.writes);
    }
  }

  /** The entry was built from the i-th path, by a stat the kernel answered. */
  ghost predicate FoundAt(cfg: Config, paths: seq<Path>, probes: seq<Probe>, e: LogEntry, i: nat) {
    i < |probes| && i < |paths| && probes[i].tick.ok && e == ToEntry(cfg, paths[i], e.size, probes[i].inspect)
  }

  ghost predicate WasFound(cfg: Config, paths: seq<Path>, probes: seq<Probe>, e: LogEntry) {
    exists i: nat :: FoundAt(cfg, paths, probes, e, i)
  }

  lemma {:induction false} ScanFound(cfg: Config, paths: seq<Path>, probes: seq<Probe>, s: Scan, e: LogEntry)
    requires |probes| <= |paths|
    requires s.entries == []
    requires e in ScanAll(cfg, paths, probes, s).entries
    ensures WasFound(cfg, paths, probes, e)
    decreases |probes|
  {
    var n := |probes| - 1;
    var before := ScanAll(cfg, paths, probes[..n], s);
    if e in before.entries {
      ScanFound(cfg, paths, probes[..n], s, e);
      var i: nat :| FoundAt(cfg, paths, probes[..n], e, i);
      assert FoundAt(cfg, paths, probes, e, i);
    } else {
      assert FoundAt(cfg, paths, probes, e, n);
    }
  }

  /** Between its stat and the end of the loop a log can only have grown. */
  lemma {:induction false} ScanSizes(cfg: Config, paths: seq<Path>, probes: seq<Probe>, s: Scan, e: LogEntry)
    requires |probes| <= |paths|
    requires s.entries == []
    requires e in ScanAll(cfg, paths, probes, s).entries
    ensures var files := ScanAll(cfg, paths, probes, s).files;
      e.path in files && e.size <= files[e.path]
    decreases |probes|
  {
    var n := |probes| - 1;
    var before := ScanAll(cfg, paths, probes[..n], s);
    WrittenAllSize(before.files, probes[n].tick.writes, e.path);
    if e in before.entries {
      ScanSizes(cfg, paths, probes[..n], s, e);
    }
  }

  /** Each id is the one its own path gives. */
  ghost predicate IdsFromPaths(entries: seq<LogEntry>) {
    forall i :: 0 <= i < |entries| ==> entries[i].cid == Docker.ContainerId(entries[i].path)
  }

  /** The sorted entries carry the ids of their paths. */
  lemma OrderHasPathIds(cfg: Config, paths: seq<Path>, probes: seq<Probe>, s: Scan, order: seq<LogEntry>)
    requires |probes| <= |paths|
    requires s.entries == []
    requires Ranks(order, ScanAll(cfg, paths, probes, s).entries, EntrySize)
    ensures IdsFromPaths(order)
  {
    forall i | 0 <= i < |order| ensures order[i].cid == Docker.ContainerId(order[i].path) {
      SameElements(order, ScanAll(cfg, paths, probes, s).entries, EntrySize, order[i]);
      ScanFound(cfg, paths, probes, s, order[i]);
      var k: nat :| FoundAt(cfg, paths, probes, order[i], k);
    }
  }

  // ---- one entry per path ----

  ghost predicate Distinct(paths: seq<Path>) {
    forall i, j :: 0 <= i < j < |paths| ==> paths[i] != paths[j]
  }

  ghost predicate DistinctPaths(entries: seq<LogEntry>) {
    forall i, j :: 0 <= i < j < |entries| ==> entries[i].path != entries[j].path
  }

  function EntryAt(path: Path): LogEntry -> int { (e: LogEntry) => if e.path == path then 1 else 0 }

  function PathIs(path: Path): Path -> int { (p: Path) => if p == path then 1 else 0 }

  lemma ScanStepPathCount(cfg: Config, p: Path, probe: Probe, s: Scan, path: Path)
    ensures Sum(ScanStep(cfg, p, probe, s).entries, EntryAt(path)) <= Sum(s.entries, EntryAt(path)) + PathIs(path)(p)
  {
    var files := WrittenAll(s.files, probe.tick.writes);
    match Stated(files, p, probe.tick.ok)
    case None =>
    case Some(size) =>
      SumSnoc(s.entries, ToEntry(cfg, p, size, probe.inspect), EntryAt(path));
  }

  lemma {:induction false} ScanPathCount(cfg: Config, paths: seq<Path>, probes: seq<Probe>, s: Scan, path: Path)
    requires |probes| <= |paths|
    requires s.entries == []
    ensures Sum(ScanAll(cfg, paths, probes, s).entries, EntryAt(path)) <= Sum(paths[..|probes|], PathIs(path))
    decreases |probes|
  {
    if |probes| > 0 {
      var n := |probes| - 1;
      ScanPathCount(cfg, paths, probes[..n], s, path);
      ScanStepPathCount(cfg, paths[n], probes[n], ScanAll(cfg, paths, probes[..n], s), path);
      assert paths[..n + 1][..n] == paths[..n];
    }
  }

  /** Distinct paths give sorted entries with distinct paths, whatever order the sort leaves. */
  lemma EntriesDistinct(cfg: Config, paths: seq<Path>, probes: seq<Probe>, s: Scan, order: seq<LogEntry>)
    requires |probes| == |paths| && Distinct(paths)
    requires s.entries == []
    requires multiset(order) == multiset(ScanAll(cfg, paths, probes, s).entries)
    ensures DistinctPaths(order)
  {
    forall i, j | 0 <= i < j < |order| ensures order[i].path != order[j].path {
      if order[i].path == order[j].path {
        var path := order[i].path;
        ScanPathCount(cfg, paths, probes, s, path);
        assert paths[..|probes|] == paths;
        SumAtMostOne(paths, PathIs(path));
        SumBag(order, ScanAll(cfg, paths, probes, s).entries, EntryAt(path));
        SumTwo(order, i, j, EntryAt(path));
      }
    }
  }
}
