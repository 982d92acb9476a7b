/** When cleaning settles: one error-free run without writers, and every run after it. */
module Convergence {
  import opened Sums
  import opened LogFiles
  import opened Policies
  import opened Docker
  import opened Tables
  import opened Ranking
  import opened Cleanup
  import opened ScanLaws
  import opened SweepLaws
  import opened RunLaws
  import opened History

  /** No logger writes while the run works. */
  predicate Calm(env: Env) {
    && (forall i :: 0 <= i < |env.probes| ==> |env.probes[i].tick.writes| == 0)
    && CalmActs(env.acts)
  }

  predicate CalmActs(acts: seq<Act>) {
    forall i :: 0 <= i < |acts| ==> |acts[i].stat.writes| == 0 && |acts[i].change.writes| == 0
  }

  /** Docker's answers resolve each discovered path to the same name every time. */
  ghost predicate Named(cfg: Config, env: Env, name: Path -> string) {
    env.paths.Some? ==> forall i :: 0 <= i < |env.probes| && i < |env.paths.value| ==>
      ResolvedName(cfg, env.paths.value[i], env.probes[i].inspect) == name(env.paths.value[i])
  }

  /** Nothing left to do for this log. */
  predicate Settled(cfg: Config, files: Files, name: Path -> string, path: Path) {
    path !in files || files[path] < Threshold(cfg) || name(path) in cfg.excluded
  }

  ghost predicate AllSettled(cfg: Config, files: Files, name: Path -> string, paths: seq<Path>) {
    forall p :: p in paths ==> Settled(cfg, files, name, p)
  }

  // ---- a calm stat loop ----

  lemma {:induction false} CalmScan(cfg: Config, paths: seq<Path>, probes: seq<Probe>, s: Scan)
    requires |probes| <= |paths| && s.entries == []
    requires forall i :: 0 <= i < |probes| ==> |probes[i].tick.writes| == 0
    ensures ScanAll(cfg, paths, probes, s).files == s.files
    decreases |probes|
  {
    if |probes| > 0 { CalmScan(cfg, paths, probes[..|probes| - 1], s); }
  }

  /** Each entry carries the size on disk and the name the path always resolves to. */
  lemma {:induction false} CalmEntry(cfg: Config, paths: seq<Path>, probes: seq<Probe>, s: Scan, name: Path -> string,
                                     e: LogEntry)
    requires |probes| <= |paths| && s.entries == []
    requires forall i :: 0 <= i < |probes| ==> |probes[i].tick.writes| == 0
    requires forall i :: 0 <= i < |probes| ==> ResolvedName(cfg, paths[i], probes[i].inspect) == name(paths[i])
    requires e in ScanAll(cfg, paths, probes, s).entries
    ensures e.path in paths && e.path in s.files && e.size == s.files[e.path] && e.name == name(e.path)
    decreases |probes|
  {
    var n := |probes| - 1;
    CalmScan(cfg, paths, probes[..n], s);
    if e in ScanAll(cfg, paths, probes[..n], s).entries {
      CalmEntry(cfg, paths, probes[..n], s, name, e);
    }
  }

  /** The k-th entry is for the k-th path. */
  ghost predicate EntryFor(entries: seq<LogEntry>, paths: seq<Path>, k: nat) {
    k < |entries| && k < |paths| && entries[k].path == paths[k]
  }

  /** A step without a new error adds one entry, for its path. */
  lemma StepAddsEntry(cfg: Config, paths: seq<Path>, probe: Probe, s: Scan, k: nat)
    requires |s.entries| < |paths|
    requires k < |s.entries| ==> EntryFor(s.entries, paths, k)
    ensures var t := ScanStep(cfg, paths[|s.entries|], probe, s);
      |t.errors| == |s.errors| ==>
        |t.entries| == |s.entries| + 1 && (k < |t.entries| ==> EntryFor(t.entries, paths, k))
  {
  }

  lemma StepErrors(cfg: Config, path: Path, probe: Probe, s: Scan)
    ensures |s.errors| <= |ScanStep(cfg, path, probe, s).errors|
  {
  }

  lemma {:induction false} ErrorsGrow(cfg: Config, paths: seq<Path>, probes: seq<Probe>, s: Scan)
    requires |probes| <= |paths|
    ensures |s.errors| <= |ScanAll(cfg, paths, probes, s).errors|
    decreases |probes|
  {
    if |probes| > 0 {
      var n := |probes| - 1;
      ErrorsGrow(cfg, paths, probes[..n], s);
      StepErrors(cfg, paths[n], probes[n], ScanAll(cfg, paths, probes[..n], s));
    }
  }

  lemma NoErrorSoFar(cfg: Config, paths: seq<Path>, probes: seq<Probe>, s: Scan)
    requires 0 < |probes| <= |paths| && |ScanAll(cfg, paths, probes, s).errors| == |s.errors|
    ensures |ScanAll(cfg, paths, probes[..|probes| - 1], s).errors| == |s.errors|
  {
    var n := |probes| - 1;
    ErrorsGrow(cfg, paths, probes[..n], s);
    StepErrors(cfg, paths[n], probes[n], ScanAll(cfg, paths, probes[..n], s));
  }

  /** Without stat errors the k-th entry is for the k-th path. */
  lemma {:induction false} EntryPerPath(cfg: Config, paths: seq<Path>, probes: seq<Probe>, s: Scan, k: nat)
    requires |probes| <= |paths| && s.entries == [] && k < |paths|
    requires |ScanAll(cfg, paths, probes, s).errors| == |s.errors|
    ensures var entries := ScanAll(cfg, paths, probes, s).entries;
      |entries| == |probes| && (k < |probes| ==> EntryFor(entries, paths, k))
    decreases |probes|
  {
    if |probes| > 0 {
      var n := |probes| - 1;
      NoErrorSoFar(cfg, paths, probes, s);
      EntryPerPath(cfg, paths, probes[..n], s, k);
      StepAddsEntry(cfg, paths, probes[n], ScanAll(cfg, paths, probes[..n], s), k);
    }
  }

  // ---- a calm truncation loop ----

  /** Deleted, or truncated to nothing. */
  predicate Cleared(cfg: Config, files: Files, path: Path) {
    path !in files || (cfg.mode.Truncate? && files[path] == 0)
  }

  predicate SameFile(a: Files, b: Files, path: Path) {
    (path in a <==> path in b) && SizeOf(a, path) == SizeOf(b, path)
  }

  ghost predicate ClearedUpTo(cfg: Config, all: seq<ContainerLogEntry>, files: Files, n: nat) {
    forall i :: 0 <= i < n && i < |all| && Eligible(cfg, all[i]) ==> Cleared(cfg, files, all[i].path)
  }

  /** An error-free loop without writers truncates or deletes every eligible log. */
  lemma {:induction false} CalmSweepClears(cfg: Config, acts: seq<Act>, s: Sweep)
    requires |acts| <= |s.all| && Fresh(s) && !cfg.dryRun && CalmActs(acts)
    requires |SweepAll(cfg, acts, s).errors| == |s.errors|
    ensures ClearedUpTo(cfg, s.all, SweepAll(cfg, acts, s).files, |acts|)
    decreases |acts|
  {
    if |acts| > 0 {
      var n := |acts| - 1;
      var before, after := SweepAll(cfg, acts[..n], s), SweepAll(cfg, acts, s);
      SweepErrorsGrow(cfg, acts[..n], s);
      CalmSweepClears(cfg, acts[..n], s);
      SweepFlags(cfg, acts[..n], s);
      assert SameButFlag(before.all[n], s.all[n]);
      forall i | 0 <= i <= n && Eligible(cfg, s.all[i]) ensures Cleared(cfg, after.files, s.all[i].path) {
        CalmStep(cfg, acts[n], n, before, s.all[i].path);
      }
    }
  }

  /** One calm step leaves a log as it is, or clears it; an eligible log is cleared unless it fails. */
  lemma CalmStep(cfg: Config, act: Act, n: nat, s: Sweep, path: Path)
    requires n < |s.all| && !cfg.dryRun
    requires |act.stat.writes| == 0 && |act.change.writes| == 0
    ensures var r := SweepStep(cfg, act, n, s);
      && (SameFile(s.files, r.files, path) || Cleared(cfg, r.files, path))
      && (path !in s.files ==> path !in r.files)
      && (path in s.files && !cfg.mode.Delete? ==> path in r.files)
      && (s.all[n].path == path && Eligible(cfg, s.all[n]) && |r.errors| == |s.errors| ==> Cleared(cfg, r.files, path))
  {
    var a := Apply(cfg.mode, s.files, s.all[n].path, act);
    if a.reclaimed.Some? { ApplySucceeded(cfg.mode, s.files, s.all[n].path, act); }
  }

  lemma {:induction false} SweepErrorsGrow(cfg: Config, acts: seq<Act>, s: Sweep)
    requires |acts| <= |s.all|
    ensures |s.errors| <= |SweepAll(cfg, acts, s).errors|
    decreases |acts|
  {
    if |acts| > 0 { SweepErrorsGrow(cfg, acts[..|acts| - 1], s); }
  }

  /** With nothing eligible a calm loop changes no file and counts nothing. */
  lemma {:induction false} NothingEligible(cfg: Config, acts: seq<Act>, s: Sweep)
    requires |acts| <= |s.all| && Fresh(s) && CalmActs(acts)
    requires forall i :: 0 <= i < |s.all| ==> !Eligible(cfg, s.all[i])
    ensures var r := SweepAll(cfg, acts, s);
      r.files == s.files && r.cleaned == 0 && r.reclaimed == 0 && r.all == s.all
    decreases |acts|
  {
    if |acts| > 0 { NothingEligible(cfg, acts[..|acts| - 1], s); }
  }

  // ---- the theorems ----

  /** A real run can settle these logs: what it truncates is below the threshold, or it deletes, or it spares them all. */
  predicate CanSettle(cfg: Config, name: Path -> string, paths: seq<Path>) {
    0 < Threshold(cfg) || cfg.mode.Delete? || forall p :: p in paths ==> name(p) in cfg.excluded
  }

  /**
   A real run that meets no error and no writer leaves every discovered log settled exactly
   when the threshold is positive, or the mode is delete, or every one of them is excluded;
   and what it reports as reclaimed is exactly what left the disk.
   */
  lemma RunSettles(cfg: Config, w: World, env: Env, name: Path -> string)
    requires Fits(cfg, w, env) && env.paths.Some?
    requires !HandsOff(cfg) && Calm(env) && Named(cfg, env, name)
    requires Swept(cfg, w, env).errors == []
    ensures AllSettled(cfg, Run(cfg, w, env).world.files, name, env.paths.value) <==> CanSettle(cfg, name, env.paths.value)
    ensures TotalBytes(w.files) == TotalBytes(Run(cfg, w, env).world.files) + Swept(cfg, w, env).reclaimed
  {
    forall p | p in env.paths.value
      ensures Settled(cfg, Run(cfg, w, env).world.files, name, p) <==> CanSettle(cfg, name, [p])
    {
      PathSettles(cfg, w, env, name, p);
    }
    RunConserves(cfg, w, env);
    CalmWrites(env);
    CalmGap(env.acts, Swept(cfg, w, env).all);
  }

  /** In an error-free run a discovered path has its place in the sorted list, with its size and name. */
  lemma EntryOf(cfg: Config, w: World, env: Env, name: Path -> string, p: Path) returns (i: nat)
    requires Fits(cfg, w, env) && env.paths.Some? && Calm(env) && Named(cfg, env, name) && p in env.paths.value
    requires Swept(cfg, w, env).errors == []
    ensures i < |env.order| && p in w.files
    ensures env.order[i].path == p && env.order[i].size == w.files[p] && env.order[i].name == name(p)
  {
    SweepStartsFresh(cfg, w, env);
    SweepErrorsGrow(cfg, env.acts, StartSweep(cfg, Scanned(cfg, w, env), env.order));
    var e := EntryOnDisk(cfg, env.paths.value, env.probes, w, name, p);
    SameElements(env.order, Scanned(cfg, w, env).entries, EntrySize, e);
    i :| 0 <= i < |env.order| && env.order[i] == e;
  }

  lemma PathSettles(cfg: Config, w: World, env: Env, name: Path -> string, p: Path)
    requires Fits(cfg, w, env) && env.paths.Some? && p in env.paths.value
    requires !HandsOff(cfg) && Calm(env) && Named(cfg, env, name)
    requires Swept(cfg, w, env).errors == []
    ensures Settled(cfg, Swept(cfg, w, env).files, name, p) <==> CanSettle(cfg, name, [p])
  {
    var s := StartSweep(cfg, Scanned(cfg, w, env), env.order);
    var i := EntryOf(cfg, w, env, name, p);
    SweepStartsFresh(cfg, w, env);
    SweepErrorsGrow(cfg, env.acts, s);
    CalmScan(cfg, env.paths.value, env.probes, StartScan(w));
    EntrySettles(cfg, env.acts, s, name, i);
    assert p in [p];
  }

  /** The same for an entry that shows the true size and name of its log. */
  lemma EntrySettles(cfg: Config, acts: seq<Act>, s: Sweep, name: Path -> string, i: nat)
    requires |acts| == |s.all| && Fresh(s) && !HandsOff(cfg) && CalmActs(acts)
    requires |SweepAll(cfg, acts, s).errors| == |s.errors|
    requires i < |s.all| && s.all[i].path in s.files && s.all[i].size == s.files[s.all[i].path]
    requires s.all[i].isExcluded == (name(s.all[i].path) in cfg.excluded)
    ensures Settled(cfg, SweepAll(cfg, acts, s).files, name, s.all[i].path)
      <==> 0 < Threshold(cfg) || cfg.mode.Delete? || name(s.all[i].path) in cfg.excluded
  {
    CalmSweepClears(cfg, acts, s);
    CalmSizes(cfg, acts, s, s.all[i].path);
  }

  /** Without stat errors a discovered path has an entry with its size and name. */
  lemma EntryOnDisk(cfg: Config, paths: seq<Path>, probes: seq<Probe>, w: World, name: Path -> string, p: Path)
    returns (e: LogEntry)
    requires |probes| == |paths| && p in paths
    requires forall i :: 0 <= i < |probes| ==> |probes[i].tick.writes| == 0
    requires forall i :: 0 <= i < |probes| ==> ResolvedName(cfg, paths[i], probes[i].inspect) == name(paths[i])
    requires |ScanAll(cfg, paths, probes, StartScan(w)).errors| == 0
    ensures e in ScanAll(cfg, paths, probes, StartScan(w)).entries
    ensures e.path == p && p in w.files && e.size == w.files[p] && e.name == name(p)
  {
    var k :| 0 <= k < |paths| && paths[k] == p;
    EntryPerPath(cfg, paths, probes, StartScan(w), k);
    e := ScanAll(cfg, paths, probes, StartScan(w)).entries[k];
    CalmEntry(cfg, paths, probes, StartScan(w), name, e);
  }

  lemma {:induction false} CalmSizes(cfg: Config, acts: seq<Act>, s: Sweep, path: Path)
    requires |acts| <= |s.all| && !cfg.dryRun && CalmActs(acts)
    ensures SizeOf(SweepAll(cfg, acts, s).files, path) <= SizeOf(s.files, path)
    ensures path in s.files && !cfg.mode.Delete? ==> path in SweepAll(cfg, acts, s).files
    decreases |acts|
  {
    if |acts| > 0 {
      var n := |acts| - 1;
      CalmSizes(cfg, acts[..n], s, path);
      CalmStep(cfg, acts[n], n, SweepAll(cfg, acts[..n], s), path);
    }
  }

  lemma {:induction false} CalmGap(acts: seq<Act>, all: seq<ContainerLogEntry>)
    requires |acts| <= |all| && CalmActs(acts)
    ensures Gap(acts, all) == 0
    decreases |acts|
  {
    if |acts| > 0 { CalmGap(acts[..|acts| - 1], all); }
  }

  lemma CalmWrites(env: Env)
    requires Calm(env)
    ensures EnvWrites(env) == []
  {
    CalmProbeWrites(env.probes);
    CalmActsWrites(env.acts);
  }

  lemma {:induction false} CalmProbeWrites(probes: seq<Probe>)
    requires forall i :: 0 <= i < |probes| ==> |probes[i].tick.writes| == 0
    ensures ProbeWrites(probes) == []
    decreases |probes|
  {
    if |probes| > 0 { CalmProbeWrites(probes[..|probes| - 1]); }
  }

  lemma {:induction false} CalmActsWrites(acts: seq<Act>)
    requires CalmActs(acts)
    ensures ActsWrites(acts) == []
    decreases |acts|
  {
    if |acts| > 0 { CalmActsWrites(acts[..|acts| - 1]); }
  }

  /** A calm run over settled logs changes no file and cleans nothing. */
  lemma RunOverSettled(cfg: Config, w: World, env: Env, name: Path -> string)
    requires Fits(cfg, w, env) && env.paths.Some?
    requires Calm(env) && Named(cfg, env, name) && AllSettled(cfg, w.files, name, env.paths.value)
    ensures Run(cfg, w, env).world.files == w.files
    ensures Swept(cfg, w, env).cleaned == 0 && Swept(cfg, w, env).reclaimed == 0
  {
    var paths, scan := env.paths.value, Scanned(cfg, w, env);
    var s := StartSweep(cfg, scan, env.order);
    SweepStartsFresh(cfg, w, env);
    CalmScan(cfg, paths, env.probes, StartScan(w));
    forall i | 0 <= i < |s.all| ensures !Eligible(cfg, s.all[i]) {
      SameElements(env.order, scan.entries, EntrySize, env.order[i]);
      CalmEntry(cfg, paths, env.probes, StartScan(w), name, env.order[i]);
      assert Settled(cfg, w.files, name, env.order[i].path);
    }
    NothingEligible(cfg, env.acts, s);
  }

  /** The later runs: calm, naming logs as before, discovering none but the known ones. */
  ghost predicate LaterRuns(cfg: Config, h: seq<Event>, name: Path -> string, known: seq<Path>) {
    forall k :: 0 <= k < |h| ==>
      && h[k].Ran? && Calm(h[k].env) && Named(cfg, h[k].env, name)
      && (h[k].env.paths.Some? ==> forall p :: p in h[k].env.paths.value ==> p in known)
  }

  /** The run at position k cleans nothing. */
  ghost predicate IdleAt(cfg: Config, w: World, h: seq<Event>, k: nat)
    requires Legal(cfg, w, h) && k < |h|
  {
    LegalPrefix(cfg, w, h, k);
    h[k].Ran? && h[k].env.paths.Some? ==>
      Swept(cfg, Replay(cfg, w, h[..k]), h[k].env).cleaned == 0
      && Replay(cfg, w, h[..k]).files == w.files
  }

  lemma {:induction false} SettledDisk(cfg: Config, w: World, h: seq<Event>, name: Path -> string, known: seq<Path>)
    requires Legal(cfg, w, h) && LaterRuns(cfg, h, name, known) && AllSettled(cfg, w.files, name, known)
    ensures Replay(cfg, w, h).files == w.files
    decreases |h|
  {
    if |h| > 0 {
      var n := |h| - 1;
      SettledDisk(cfg, w, h[..n], name, known);
      RunIdles(cfg, Replay(cfg, w, h[..n]), h[n].env, name, known);
    }
  }

  lemma RunIdles(cfg: Config, w: World, env: Env, name: Path -> string, known: seq<Path>)
    requires Fits(cfg, w, env) && Calm(env) && Named(cfg, env, name)
    requires env.paths.Some? ==> forall p :: p in env.paths.value ==> p in known
    requires AllSettled(cfg, w.files, name, known)
    ensures Run(cfg, w, env).world.files == w.files
    ensures env.paths.Some? ==> Swept(cfg, w, env).cleaned == 0
  {
    if env.paths.Some? {
      assert AllSettled(cfg, w.files, name, env.paths.value);
      RunOverSettled(cfg, w, env, name);
    }
  }

  /** Once settled, settled for good: every later run leaves the disk alone and cleans nothing. */
  lemma StaysSettled(cfg: Config, w: World, h: seq<Event>, name: Path -> string, known: seq<Path>)
    requires Legal(cfg, w, h) && LaterRuns(cfg, h, name, known) && AllSettled(cfg, w.files, name, known)
    ensures Replay(cfg, w, h).files == w.files
    ensures forall k :: 0 <= k < |h| ==> IdleAt(cfg, w, h, k)
  {
    SettledDisk(cfg, w, h, name, known);
    forall k | 0 <= k < |h| ensures IdleAt(cfg, w, h, k) {
      LegalPrefix(cfg, w, h, k);
      assert LaterRuns(cfg, h[..k], name, known);
      SettledDisk(cfg, w, h[..k], name, known);
      RunIdles(cfg, Replay(cfg, w, h[..k]), h[k].env, name, known);
    }
  }

  /** The two together: after one such run, no later run changes a file or cleans a log. */
  lemma CleaningConverges(cfg: Config, w: World, env: Env, later: seq<Event>, name: Path -> string)
    requires Fits(cfg, w, env) && env.paths.Some?
    requires !HandsOff(cfg) && CanSettle(cfg, name, env.paths.value) && Calm(env) && Named(cfg, env, name)
    requires Swept(cfg, w, env).errors == []
    requires Legal(cfg, Run(cfg, w, env).world, later) && LaterRuns(cfg, later, name, env.paths.value)
    ensures var w' := Run(cfg, w, env).world;
      && Replay(cfg, w', later).files == w'.files
      && forall k :: 0 <= k < |later| ==> IdleAt(cfg, w', later, k)
  {
    RunSettles(cfg, w, env, name);
    StaysSettled(cfg, Run(cfg, w, env).world, later, name, env.paths.value);
  }

  // ---- when a run meets no error ----

  /** The kernel answers every stat, and every path is on disk. */
  predicate AllStated(paths: seq<Path>, probes: seq<Probe>, files: Files)
    requires |probes| <= |paths|
  {
    forall i :: 0 <= i < |probes| ==> probes[i].tick.ok && paths[i] in files
  }

  lemma {:induction false} ScanMeetsNoError(cfg: Config, paths: seq<Path>, probes: seq<Probe>, s: Scan)
    requires |probes| <= |paths| && AllStated(paths, probes, s.files)
    requires s.entries == []
    requires forall i :: 0 <= i < |probes| ==> |probes[i].tick.writes| == 0
    ensures ScanAll(cfg, paths, probes, s).errors == s.errors
    decreases |probes|
  {
    if |probes| > 0 {
      var n := |probes| - 1;
      ScanMeetsNoError(cfg, paths, probes[..n], s);
      CalmScan(cfg, paths, probes[..n], s);
    }
  }

  /** Distinct paths that are on disk and a kernel that refuses nothing are enough. */
  lemma CalmRunMeetsNoError(cfg: Config, w: World, env: Env)
    requires Fits(cfg, w, env) && env.paths.Some? && Distinct(env.paths.value)
    requires !HandsOff(cfg) && Calm(env) && Cooperates(env.acts)
    requires AllStated(env.paths.value, env.probes, w.files)
    ensures Swept(cfg, w, env).errors == []
  {
    var s := StartSweep(cfg, Scanned(cfg, w, env), env.order);
    SweepStartsFresh(cfg, w, env);
    LogsStillThere(cfg, w, env);
    ScanMeetsNoError(cfg, env.paths.value, env.probes, StartScan(w));
    SweepTruncatesEligible(cfg, env.acts, s);
    SweepCounts(cfg, env.acts, s);
    assert s.all[..|env.acts|] == s.all;
    SumEq(Swept(cfg, w, env).all, s.all, Flagged, IsEligible(cfg));
  }

  /**
   In any configuration and for any logs on disk there is a run without writers that the kernel
   does not hinder, with whatever answer of Docker in the first round and in the second.
   */
  lemma QuietRunExists(cfg: Config, w: World, paths: seq<Path>, answer: Inspect, later: Inspect, at: int) returns (env: Env)
    requires forall i :: 0 <= i < |paths| ==> paths[i] in w.files
    ensures env.paths == Some(paths) && env.at == at && env.fault == NoFault
    ensures Fits(cfg, w, env) && Calm(env) && Cooperates(env.acts) && AllStated(paths, env.probes, w.files)
    ensures |Scanned(cfg, w, env).errors| == 0
    ensures forall i :: 0 <= i < |env.probes| ==> env.probes[i].inspect == answer
    ensures forall i :: 0 <= i < |env.inspects| ==> env.inspects[i] == later
  {
    var probes := seq(|paths|, _ => Probe(Tick([], true), answer, true));
    var order := SomeRanking(ScanAll(cfg, paths, probes, StartScan(w)).entries, EntrySize);
    var acts := seq(|order|, _ => Act(Tick([], true), Tick([], true)));
    env := Env(Some(paths), probes, order, acts, seq(|order|, _ => later), 0, 0, at, NoFault);
    ScanMeetsNoError(cfg, paths, probes, StartScan(w));
  }

  /** A real one meets no error when the paths are distinct, so the theorems above apply. */
  lemma CalmRunExists(cfg: Config, w: World, paths: seq<Path>) returns (env: Env)
    requires !HandsOff(cfg) && Distinct(paths) && forall i :: 0 <= i < |paths| ==> paths[i] in w.files
    ensures env.paths == Some(paths) && Fits(cfg, w, env) && Calm(env) && Named(cfg, env, ContainerId)
    ensures |Scanned(cfg, w, env).errors| == 0 && Swept(cfg, w, env).errors == []
    ensures forall i :: 0 <= i < |env.probes| ==> env.probes[i].inspect.Failed?
    ensures Cooperates(env.acts)
  {
    env := QuietRunExists(cfg, w, paths, Inspect.Failed, Inspect.Failed, 0);
    CalmRunMeetsNoError(cfg, w, env);
  }

  /**
   An input on which the exclusion is lost: any log at or above the threshold whose id is not
   in the list itself, in a run whose inspect call fails. It is truncated, whichever excluded
   name its container has.
   */
  lemma FailedInspectLosesExclusion(cfg: Config, w: World, path: Path, name: string) returns (env: Env)
    requires !HandsOff(cfg) && cfg.hasDocker && name in cfg.excluded && ContainerId(path) !in cfg.excluded
    requires path in w.files && Threshold(cfg) <= w.files[path]
    ensures env.paths == Some([path]) && Fits(cfg, w, env)
    ensures |env.probes| == 1 && env.probes[0].inspect.Failed?
    ensures |Swept(cfg, w, env).all| == 1 && Swept(cfg, w, env).all[0].path == path
    ensures Swept(cfg, w, env).all[0].wasTruncated
  {
    env := CalmRunExists(cfg, w, [path]);
    var k := OnlyEntry(cfg, w, env, path, ContainerId);
    ExclusionHoldsExactly(cfg, w, env, 0, k, name);
    SweepStartsFresh(cfg, w, env);
    SweepFlags(cfg, env.acts, StartSweep(cfg, Scanned(cfg, w, env), env.order));
    assert SameButFlag(Swept(cfg, w, env).all[0], ToListed(cfg, env.order[0]));
  }

  /** A log of exactly the threshold size is truncated, unless its name is excluded. */
  lemma ExactSizeIsTruncated(cfg: Config, w: World, path: Path) returns (env: Env)
    requires !HandsOff(cfg) && ContainerId(path) !in cfg.excluded
    requires path in w.files && w.files[path] == Threshold(cfg)
    ensures env.paths == Some([path]) && Fits(cfg, w, env)
    ensures var all := Swept(cfg, w, env).all;
      |all| == 1 && all[0].path == path && all[0].size == Threshold(cfg) && all[0].wasTruncated
  {
    env := CalmRunExists(cfg, w, [path]);
    var k := OnlyEntry(cfg, w, env, path, ContainerId);
    var s := StartSweep(cfg, Scanned(cfg, w, env), env.order);
    SweepStartsFresh(cfg, w, env);
    LogsStillThere(cfg, w, env);
    SweepTruncatesEligible(cfg, env.acts, s);
    SweepFlags(cfg, env.acts, s);
    assert SameButFlag(Swept(cfg, w, env).all[0], s.all[0]);
  }

  lemma OnlyEntry(cfg: Config, w: World, env: Env, path: Path, name: Path -> string) returns (k: nat)
    requires Fits(cfg, w, env) && env.paths == Some([path]) && Calm(env) && Named(cfg, env, name)
    requires |Scanned(cfg, w, env).errors| == 0
    ensures k == 0 && |env.order| == 1 && FoundAt(cfg, [path], env.probes, env.order[0], k)
    ensures path in w.files && env.order[0].size == w.files[path] && env.order[0].name == name(path)
  {
    var paths, entries := [path], Scanned(cfg, w, env).entries;
    EntryPerPath(cfg, paths, env.probes, StartScan(w), 0);
    SweepStartsFresh(cfg, w, env);
    SameElements(env.order, entries, EntrySize, env.order[0]);
    CalmEntry(cfg, paths, env.probes, StartScan(w), name, env.order[0]);
    ScanFound(cfg, paths, env.probes, StartScan(w), env.order[0]);
    k :| FoundAt(cfg, paths, env.probes, env.order[0], k);
  }

  /**
   An input on which Run panics: any log whose directory name is shorter than twelve
   characters, in a run with a Docker client whose inspect calls fail.
   */
  lemma PanickingRunExists(cfg: Config, w: World, path: Path) returns (env: Env)
    requires cfg.hasDocker && path in w.files && |ContainerId(path)| < 12
    ensures env.paths == Some([path]) && Fits(cfg, w, env) && Run(cfg, w, env).ending.Panicked?
  {
    env := QuietRunExists(cfg, w, [path], Inspect.Failed, Inspect.Failed, 0);
    var k := OnlyEntry(cfg, w, env, path, ContainerId);
    assert SliceFails(env.order[0].cid, env.inspects[0]);
    RunPanicsExactly(cfg, w, env);
  }
}
