/**
 What a run tells about the logs it met, in terms of the files, the answers it got and the
 settings alone: its entries, errors, log lines, insights, snapshots, and which logs it cleans.
 */
module RunTells {
  import opened Sums
  import opened LogFiles
  import opened Policies
  import opened Docker
  import opened Tables
  import opened Ranking
  import opened Cleanup
  import opened ScanLaws
  import opened SweepLaws
  import opened RunLaws

  // ---- the threshold ----

  /** float64(size) / 1024 / 1024 */
  function SizeMb(bytes: nat): real { bytes as real / 1024.0 / 1024.0 }

  /** The loop skips an entry exactly when its size in MB is below ThresholdMB. */
  lemma BelowMeansMb(cfg: Config, e: ContainerLogEntry)
    ensures Below(cfg, e) <==> SizeMb(e.size) < cfg.thresholdMb as real
  {
    assert SizeMb(e.size) * 1048576.0 == e.size as real;
    assert (cfg.thresholdMb as real) * 1048576.0 == (cfg.thresholdMb * 1048576) as real;
  }

  /** With a kernel that refuses nothing, a real run cleans exactly the logs that reach ThresholdMB under a name that is not excluded. */
  lemma RunCleansBySize(cfg: Config, w: World, env: Env, i: nat)
    requires Fits(cfg, w, env) && env.paths.Some? && Distinct(env.paths.value) && i < |env.order|
    requires !cfg.dryRun && (cfg.mode == Truncate || cfg.mode == Delete) && Cooperates(env.acts)
    ensures var all := Swept(cfg, w, env).all;
      && |all| == |env.order|
      && (all[i].wasTruncated <==> cfg.thresholdMb as real <= SizeMb(all[i].size) && all[i].name !in cfg.excluded)
  {
    var s := StartSweep(cfg, Scanned(cfg, w, env), env.order);
    SweepStartsFresh(cfg, w, env);
    LogsStillThere(cfg, w, env);
    SweepTruncatesEligible(cfg, env.acts, s);
    SweepFlags(cfg, env.acts, s);
    assert SameButFlag(Swept(cfg, w, env).all[i], s.all[i]);
    BelowMeansMb(cfg, s.all[i]);
  }

  // ---- the entries ----

  /** The files when the k-th path is stated. */
  function FilesAt(files: Files, probes: seq<Probe>, k: nat): Files
    requires k < |probes|
  {
    WrittenAll(files, ProbeWrites(probes[..k + 1]))
  }

  /** The kernel answers the k-th stat, and the log is there. */
  predicate StatSucceeds(files: Files, paths: seq<Path>, probes: seq<Probe>, k: nat)
    requires k < |probes| <= |paths|
  {
    probes[k].tick.ok && paths[k] in FilesAt(files, probes, k)
  }

  /** The entry says of the k-th path what the kernel and Docker answered about it. */
  ghost predicate EntryTells(cfg: Config, files: Files, paths: seq<Path>, probes: seq<Probe>, e: LogEntry, k: nat)
    requires k < |probes| <= |paths|
  {
    var answer := probes[k].inspect;
    && StatSucceeds(files, paths, probes, k)
    && e.path == paths[k] && e.size == FilesAt(files, probes, k)[paths[k]] && e.cid == ContainerId(paths[k])
    && if cfg.hasDocker && answer.Found?
       then SlashTrimmed(answer.name, e.name) && e.image == answer.image
       else e.name == e.cid && e.image == ""
  }

  lemma ToEntryTells(cfg: Config, path: Path, size: nat, answer: Inspect)
    ensures var e := ToEntry(cfg, path, size, answer);
      && e.path == path && e.size == size && e.cid == ContainerId(path)
      && if cfg.hasDocker && answer.Found?
         then SlashTrimmed(answer.name, e.name) && e.image == answer.image
         else e.name == e.cid && e.image == ""
  {
    if answer.Found? { TrimSlashTrims(answer.name); }
  }

  lemma {:induction false} FoundEntryTells(cfg: Config, paths: seq<Path>, probes: seq<Probe>, s: Scan, e: LogEntry)
    returns (k: nat)
    requires |probes| <= |paths| && s.entries == [] && s.errors == []
    requires e in ScanAll(cfg, paths, probes, s).entries
    ensures k < |probes| && EntryTells(cfg, s.files, paths, probes, e, k)
    decreases |probes|
  {
    var n := |probes| - 1;
    var before := ScanAll(cfg, paths, probes[..n], s);
    if e in before.entries {
      k := FoundEntryTells(cfg, paths, probes[..n], s, e);
      assert probes[..n][..k + 1] == probes[..k + 1];
    } else {
      k := n;
      FilesNow(cfg, paths, probes, s);
      NewEntry(cfg, paths[n], probes[n], before, e);
    }
  }

  lemma FilesNow(cfg: Config, paths: seq<Path>, probes: seq<Probe>, s: Scan)
    requires 0 < |probes| <= |paths| && s.entries == [] && s.errors == []
    ensures var n := |probes| - 1;
      FilesAt(s.files, probes, n) == WrittenAll(ScanAll(cfg, paths, probes[..n], s).files, probes[n].tick.writes)
  {
    var n := |probes| - 1;
    ScanCounts(cfg, paths, probes[..n], s);
    assert probes[..n + 1] == probes;
    WrittenAllConcat(s.files, ProbeWrites(probes[..n]), probes[n].tick.writes);
  }

  lemma NewEntry(cfg: Config, path: Path, probe: Probe, s: Scan, e: LogEntry)
    requires e in ScanStep(cfg, path, probe, s).entries && e !in s.entries
    ensures var files := WrittenAll(s.files, probe.tick.writes);
      && probe.tick.ok && path in files && e.path == path && e.size == files[path] && e.cid == ContainerId(path)
      && if cfg.hasDocker && probe.inspect.Found?
         then SlashTrimmed(probe.inspect.name, e.name) && e.image == probe.inspect.image
         else e.name == e.cid && e.image == ""
  {
    var files := WrittenAll(s.files, probe.tick.writes);
    ToEntryTells(cfg, path, files[path], probe.inspect);
  }

  /** A listed entry repeats what the stat loop found, and is marked excluded exactly when its name is in the list. */
  lemma EntriesTellTheTruth(cfg: Config, w: World, env: Env, i: nat) returns (k: nat)
    requires Fits(cfg, w, env) && env.paths.Some? && i < |env.order|
    ensures |Swept(cfg, w, env).all| == |env.order| && k < |env.probes|
    ensures var e := Swept(cfg, w, env).all[i];
      && EntryTells(cfg, w.files, env.paths.value, env.probes, LogEntry(e.path, e.size, e.cid, e.name, e.image), k)
      && (e.isExcluded <==> e.name in cfg.excluded)
  {
    var s := StartSweep(cfg, Scanned(cfg, w, env), env.order);
    SweepStartsFresh(cfg, w, env);
    SweepFlags(cfg, env.acts, s);
    assert SameButFlag(Swept(cfg, w, env).all[i], s.all[i]);
    SameElements(env.order, Scanned(cfg, w, env).entries, EntrySize, env.order[i]);
    k := FoundEntryTells(cfg, env.paths.value, env.probes, StartScan(w), env.order[i]);
    ListedTells(cfg, env.order[i]);
  }

  lemma ListedTells(cfg: Config, e: LogEntry)
    ensures var x := ToListed(cfg, e);
      && e == LogEntry(x.path, x.size, x.cid, x.name, x.image)
      && (x.isExcluded <==> x.name in cfg.excluded) && !x.wasTruncated
  {
  }

  // ---- the errors ----

  /** One stat error for each path whose stat failed, in the order of discovery. */
  function StatFailures(files: Files, paths: seq<Path>, probes: seq<Probe>): seq<CleanupError>
    requires |probes| <= |paths|
    decreases |probes|
  {
    if |probes| == 0 then []
    else
      var n := |probes| - 1;
      StatFailures(files, paths, probes[..n])
        + if StatSucceeds(files, paths, probes, n) then [] else [CleanupError("stat", paths[n])]
  }

  lemma {:induction false} ScanErrorsTell(cfg: Config, paths: seq<Path>, probes: seq<Probe>, s: Scan)
    requires |probes| <= |paths| && s.entries == [] && s.errors == []
    ensures ScanAll(cfg, paths, probes, s).errors == StatFailures(s.files, paths, probes)
    decreases |probes|
  {
    if |probes| > 0 {
      var n := |probes| - 1;
      ScanErrorsTell(cfg, paths, probes[..n], s);
      FilesNow(cfg, paths, probes, s);
      StepError(cfg, paths[n], probes[n], ScanAll(cfg, paths, probes[..n], s));
    }
  }

  lemma StepError(cfg: Config, path: Path, probe: Probe, s: Scan)
    ensures ScanStep(cfg, path, probe, s).errors ==
      if probe.tick.ok && path in WrittenAll(s.files, probe.tick.writes) then s.errors
      else s.errors + [CleanupError("stat", path)]
  {
  }

  /** What the loop does about an entry, read off its size, its mark and its final flag. */
  function LinesOf(cfg: Config, e: ContainerLogEntry): seq<LogLine> {
    if SizeMb(e.size) < cfg.thresholdMb as real then []
    else if e.isExcluded then [SkippingExcluded(e.path)]
    else if cfg.dryRun then [WouldTruncate(e.path)]
    else if e.wasTruncated then [Truncated(e.path)]
    else [TruncateFailed(e.path)]
  }

  /** One truncate error for an entry that reaches the threshold, is not excluded, and was not cleaned in a real run. */
  function ErrorsOf(cfg: Config, e: ContainerLogEntry): seq<CleanupError> {
    if cfg.thresholdMb as real <= SizeMb(e.size) && !e.isExcluded && !cfg.dryRun && !e.wasTruncated
    then [CleanupError("truncate", e.path)] else []
  }

  function AllLines(cfg: Config, all: seq<ContainerLogEntry>): seq<LogLine> {
    if |all| == 0 then [] else AllLines(cfg, all[..|all| - 1]) + LinesOf(cfg, all[|all| - 1])
  }

  function AllErrors(cfg: Config, all: seq<ContainerLogEntry>): seq<CleanupError> {
    if |all| == 0 then [] else AllErrors(cfg, all[..|all| - 1]) + ErrorsOf(cfg, all[|all| - 1])
  }

  lemma StepTells(cfg: Config, act: Act, n: nat, s: Sweep)
    requires n < |s.all| && !s.all[n].wasTruncated
    ensures var r := SweepStep(cfg, act, n, s);
      && r.all[..n] == s.all[..n] && r.all[n + 1..] == s.all[n + 1..]
      && r.log == s.log + LinesOf(cfg, r.all[n]) && r.errors == s.errors + ErrorsOf(cfg, r.all[n])
  {
    BelowMeansMb(cfg, s.all[n]);
  }

  /** The loop has told about the first n entries and not touched the others. */
  ghost predicate ToldUpTo(cfg: Config, s: Sweep, r: Sweep, n: nat) {
    && n <= |r.all| == |s.all| && r.all[n..] == s.all[n..]
    && r.log == AllLines(cfg, r.all[..n]) && r.errors == s.errors + AllErrors(cfg, r.all[..n])
  }

  lemma ToldOneMore(cfg: Config, act: Act, s: Sweep, before: Sweep, n: nat)
    requires n < |s.all| && !s.all[n].wasTruncated && ToldUpTo(cfg, s, before, n)
    ensures ToldUpTo(cfg, s, SweepStep(cfg, act, n, before), n + 1)
  {
    SameRest(before.all, s.all, n);
    StepTells(cfg, act, n, before);
    LinesSnoc(cfg, before.all, SweepStep(cfg, act, n, before).all, n);
  }

  lemma {:induction false} SweepTells(cfg: Config, acts: seq<Act>, s: Sweep)
    requires |acts| <= |s.all| && Fresh(s)
    ensures ToldUpTo(cfg, s, SweepAll(cfg, acts, s), |acts|)
    decreases |acts|
  {
    if |acts| > 0 {
      var n := |acts| - 1;
      SweepTells(cfg, acts[..n], s);
      ToldOneMore(cfg, acts[n], s, SweepAll(cfg, acts[..n], s), n);
    }
  }

  lemma SameRest(all: seq<ContainerLogEntry>, was: seq<ContainerLogEntry>, n: nat)
    requires |all| == |was| && n < |all| && all[n..] == was[n..]
    ensures all[n] == was[n] && all[n + 1..] == was[n + 1..]
  {
    assert all[n] == all[n..][0] && was[n] == was[n..][0];
    assert all[n + 1..] == all[n..][1..] && was[n + 1..] == was[n..][1..];
  }

  lemma LinesSnoc(cfg: Config, before: seq<ContainerLogEntry>, after: seq<ContainerLogEntry>, n: nat)
    requires |before| == |after| && n < |after| && after[..n] == before[..n]
    ensures AllLines(cfg, after[..n + 1]) == AllLines(cfg, before[..n]) + LinesOf(cfg, after[n])
    ensures AllErrors(cfg, after[..n + 1]) == AllErrors(cfg, before[..n]) + ErrorsOf(cfg, after[n])
  {
    assert after[..n + 1][..n] == before[..n];
  }

  /**
   The errors of a run are its failed stats, in the order of discovery, and then the entries
   that it should have cleaned and did not, in sorted order, each with its path. Its log has
   one line for each entry that reaches the threshold, in sorted order, saying what the flag says.
   */
  lemma ErrorsAndLogTell(cfg: Config, w: World, env: Env)
    requires Fits(cfg, w, env) && env.paths.Some?
    ensures var sweep := Swept(cfg, w, env);
      && sweep.errors == StatFailures(w.files, env.paths.value, env.probes) + AllErrors(cfg, sweep.all)
      && Run(cfg, w, env).log == AllLines(cfg, sweep.all)
  {
    var s := StartSweep(cfg, Scanned(cfg, w, env), env.order);
    SweepStartsFresh(cfg, w, env);
    ScanErrorsTell(cfg, env.paths.value, env.probes, StartScan(w));
    SweepTells(cfg, env.acts, s);
    assert Swept(cfg, w, env).all[..|env.acts|] == Swept(cfg, w, env).all;
  }

  // ---- the snapshots ----

  ghost predicate Increasing(at: seq<nat>) { forall i, j :: 0 <= i < j < |at| ==> at[i] < at[j] }

  /** These snapshots repeat the entries at these places, in order. */
  ghost predicate SnapshotsOf(rows: seq<SnapshotRow>, entries: seq<LogEntry>, at: seq<nat>) {
    && |rows| == |at| && Increasing(at)
    && forall j :: 0 <= j < |at| ==>
         at[j] < |entries| && rows[j] == SnapshotRow(entries[at[j]].cid, entries[at[j]].name, entries[at[j]].size)
  }

  /** How many stats and snapshot inserts both succeeded. */
  function Inserted(files: Files, paths: seq<Path>, probes: seq<Probe>): nat
    requires |probes| <= |paths|
    decreases |probes|
  {
    if |probes| == 0 then 0
    else
      var n := |probes| - 1;
      Inserted(files, paths, probes[..n])
        + if StatSucceeds(files, paths, probes, n) && probes[n].snapshotOk then 1 else 0
  }

  /** With a database each entry whose insert succeeds leaves one snapshot of what it says; without one there are none. */
  lemma {:induction false} SnapshotsTell(cfg: Config, paths: seq<Path>, probes: seq<Probe>, s: Scan) returns (at: seq<nat>)
    requires |probes| <= |paths| && s.entries == [] && s.errors == []
    ensures var r := ScanAll(cfg, paths, probes, s);
      && s.snapshots <= r.snapshots && SnapshotsOf(r.snapshots[|s.snapshots|..], r.entries, at)
      && |at| == if cfg.hasDb then Inserted(s.files, paths, probes) else 0
    decreases |probes|
  {
    at := [];
    if |probes| > 0 {
      var n := |probes| - 1;
      at := SnapshotsTell(cfg, paths, probes[..n], s);
      FilesNow(cfg, paths, probes, s);
      at := NextSnapshot(cfg, paths[n], probes[n], ScanAll(cfg, paths, probes[..n], s), s.snapshots, at);
    }
  }

  lemma NextSnapshot(cfg: Config, path: Path, probe: Probe, s: Scan, known: seq<SnapshotRow>, at: seq<nat>)
    returns (at': seq<nat>)
    requires known <= s.snapshots && SnapshotsOf(s.snapshots[|known|..], s.entries, at)
    ensures var t := ScanStep(cfg, path, probe, s);
      && known <= t.snapshots && SnapshotsOf(t.snapshots[|known|..], t.entries, at')
      && |at'| == |at| + if cfg.hasDb && probe.snapshotOk && probe.tick.ok
                           && path in WrittenAll(s.files, probe.tick.writes) then 1 else 0
  {
    var t := ScanStep(cfg, path, probe, s);
    StepSnapshot(cfg, path, probe, s);
    at' := at;
    if |t.snapshots| > |s.snapshots| {
      at' := at + [|s.entries|];
      AddSnapshot(s.snapshots, t.snapshots, |known|, s.entries, t.entries, at);
    }
  }

  lemma AddSnapshot(rows: seq<SnapshotRow>, more: seq<SnapshotRow>, base: nat, entries: seq<LogEntry>,
                    grown: seq<LogEntry>, at: seq<nat>)
    requires base <= |rows| && SnapshotsOf(rows[base..], entries, at)
    requires entries <= grown && |grown| == |entries| + 1
    requires var e := grown[|entries|]; more == rows + [SnapshotRow(e.cid, e.name, e.size)]
    ensures SnapshotsOf(more[base..], grown, at + [|entries|])
  {
    assert more[base..] == rows[base..] + [more[|rows|]];
  }

  lemma StepSnapshot(cfg: Config, path: Path, probe: Probe, s: Scan)
    ensures var t := ScanStep(cfg, path, probe, s);
      && s.entries <= t.entries
      && if cfg.hasDb && probe.snapshotOk && probe.tick.ok && path in WrittenAll(s.files, probe.tick.writes)
         then |t.entries| == |s.entries| + 1 &&
           var e := t.entries[|s.entries|]; t.snapshots == s.snapshots + [SnapshotRow(e.cid, e.name, e.size)]
         else t.snapshots == s.snapshots
  {
  }

  /** The snapshots of a run stay, whether it completes or panics. */
  lemma RunSnapshotsTell(cfg: Config, w: World, env: Env) returns (at: seq<nat>)
    requires Fits(cfg, w, env) && env.paths.Some?
    ensures var rows := Run(cfg, w, env).world.db.snapshots;
      && w.db.snapshots <= rows
      && SnapshotsOf(rows[|w.db.snapshots|..], Scanned(cfg, w, env).entries, at)
      && |at| == if cfg.hasDb then Inserted(w.files, env.paths.value, env.probes) else 0
  {
    at := SnapshotsTell(cfg, env.paths.value, env.probes, StartScan(w));
  }

  // ---- the insights ----

  /** Each insight tells what the second inspect answered about the entry, and the largest size of its id. */
  lemma InsightsTellTheTruth(cfg: Config, w: World, env: Env, i: nat)
    requires Fits(cfg, w, env) && env.paths.Some? && Run(cfg, w, env).ending.Completed?
    ensures var insights := Run(cfg, w, env).ending.result.insights;
      if cfg.hasDocker then
        && |insights| == |env.order|
        && (i < |env.order| ==>
              && InsightTells(insights[i], env.order[i].cid, env.inspects[i], cfg.excluded)
              && IsLargest(env.order, env.order[i].cid, insights[i].logSize))
      else insights == []
  {
    if cfg.hasDocker {
      InsightsTell(EntryIds(env.order), env.inspects, cfg.excluded);
      if i < |env.order| { RunInsightsJoin(cfg, w, env, i); }
    }
  }

  // ---- how a run ends ----

  /**
   A run whose discovery fails changes nothing. One that completes returns what it publishes as
   the last result, with the times it read and their difference.
   */
  lemma EndingsTell(cfg: Config, w: World, env: Env)
    requires Fits(cfg, w, env)
    ensures var out := Run(cfg, w, env);
      && (out.ending.DiscoverFailed? <==> env.paths.None?)
      && (out.ending.DiscoverFailed? ==> out.world == w && out.log == [])
      && (out.ending.Completed? ==>
            var r := out.ending.result;
            && out.world.last == r && r.startedAt == env.startedAt && r.finishedAt == env.finishedAt
            && r.durationMs == env.finishedAt - env.startedAt && r.dryRun == cfg.dryRun)
      && (!out.ending.Completed? ==> out.world.last == w.last)
  {
  }
}
