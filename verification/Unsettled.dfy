/** When cleaning does not settle: truncating with a threshold of zero or less. */
module Unsettled {
  import opened Sums
  import opened LogFiles
  import opened Policies
  import opened Docker
  import opened Ranking
  import opened Cleanup
  import opened ScanLaws
  import opened SweepLaws
  import opened RunLaws
  import opened History
  import opened Convergence

  /** Without truncate errors the flagged entries are exactly the eligible ones. */
  lemma FlagsAreEligible(cfg: Config, acts: seq<Act>, s: Sweep)
    requires |acts| == |s.all| && Fresh(s) && !cfg.dryRun && SweepAll(cfg, acts, s).errors == []
    ensures var r := SweepAll(cfg, acts, s);
      forall i :: 0 <= i < |r.all| ==> Flagged(r.all[i]) == IsEligible(cfg)(r.all[i])
  {
    var r := SweepAll(cfg, acts, s);
    SweepFlags(cfg, acts, s);
    SweepCounts(cfg, acts, s);
    assert s.all[..|acts|] == s.all;
    KindsKeep(cfg, r.all, s.all);
    SumTight(r.all, Flagged, IsEligible(cfg));
  }

  // ---- which logs one run cleans ----

  function CleanedPaths(all: seq<ContainerLogEntry>): set<Path> {
    set e | e in all && e.wasTruncated :: e.path
  }

  function Unprotected(cfg: Config, name: Path -> string, paths: seq<Path>): set<Path> {
    set p | p in paths && name(p) !in cfg.excluded
  }

  /** With a threshold of zero or less an entry is eligible exactly when its log is not excluded by name. */
  lemma EntryIsCleaned(cfg: Config, w: World, env: Env, name: Path -> string, i: nat)
    requires Fits(cfg, w, env) && env.paths.Some? && Calm(env) && Named(cfg, env, name)
    requires Swept(cfg, w, env).errors == [] && !cfg.dryRun && Threshold(cfg) <= 0
    requires i < |env.order|
    ensures var all := Swept(cfg, w, env).all;
      && |all| == |env.order| && all[i].path == env.order[i].path && env.order[i].path in env.paths.value
      && (all[i].wasTruncated <==> name(all[i].path) !in cfg.excluded)
  {
    var s := StartSweep(cfg, Scanned(cfg, w, env), env.order);
    SweepStartsFresh(cfg, w, env);
    SweepFlags(cfg, env.acts, s);
    FlagsAreEligible(cfg, env.acts, s);
    assert SameButFlag(Swept(cfg, w, env).all[i], s.all[i]);
    SameElements(env.order, Scanned(cfg, w, env).entries, EntrySize, env.order[i]);
    CalmEntry(cfg, env.paths.value, env.probes, StartScan(w), name, env.order[i]);
  }

  /** An error-free run without writers then cleans exactly the discovered logs that are not excluded. */
  lemma CalmRunCleans(cfg: Config, w: World, env: Env, name: Path -> string)
    requires Fits(cfg, w, env) && env.paths.Some? && Calm(env) && Named(cfg, env, name)
    requires Swept(cfg, w, env).errors == [] && !cfg.dryRun && Threshold(cfg) <= 0
    ensures CleanedPaths(Swept(cfg, w, env).all) == Unprotected(cfg, name, env.paths.value)
  {
    var all, paths := Swept(cfg, w, env).all, env.paths.value;
    SweepStartsFresh(cfg, w, env);
    forall p | p in CleanedPaths(all) ensures p in Unprotected(cfg, name, paths) {
      var i :| 0 <= i < |all| && all[i].wasTruncated && all[i].path == p;
      EntryIsCleaned(cfg, w, env, name, i);
    }
    forall p | p in Unprotected(cfg, name, paths) ensures p in CleanedPaths(all) {
      var i := EntryOf(cfg, w, env, name, p);
      EntryIsCleaned(cfg, w, env, name, i);
      assert all[i] in all;
    }
  }

  // ---- run after run ----

  /** A run without writers over these logs and names, with a kernel that refuses nothing. */
  ghost predicate SameRun(cfg: Config, env: Env, name: Path -> string, paths: seq<Path>) {
    && env.paths == Some(paths) && Calm(env) && Named(cfg, env, name)
    && Cooperates(env.acts) && forall i :: 0 <= i < |env.probes| ==> env.probes[i].tick.ok
  }

  /** The later runs are all like that. */
  ghost predicate SameRuns(cfg: Config, h: seq<Event>, name: Path -> string, paths: seq<Path>) {
    forall k :: 0 <= k < |h| ==> h[k].Ran? && SameRun(cfg, h[k].env, name, paths)
  }

  /** The run at position k cleans exactly these logs. */
  ghost predicate CleansAt(cfg: Config, w: World, h: seq<Event>, k: nat, logs: set<Path>)
    requires Legal(cfg, w, h) && k < |h| && h[k].Ran? && h[k].env.paths.Some?
  {
    LegalPrefix(cfg, w, h, k);
    var sweep := Swept(cfg, Replay(cfg, w, h[..k]), h[k].env);
    sweep.errors == [] && CleanedPaths(sweep.all) == logs
  }

  ghost predicate AllThere(paths: seq<Path>, files: Files) { forall i :: 0 <= i < |paths| ==> paths[i] in files }

  lemma RunRepeats(cfg: Config, w: World, env: Env, name: Path -> string)
    requires Fits(cfg, w, env) && env.paths.Some? && Distinct(env.paths.value) && AllThere(env.paths.value, w.files)
    requires SameRun(cfg, env, name, env.paths.value)
    requires cfg.mode.Truncate? && !cfg.dryRun && Threshold(cfg) <= 0
    ensures Swept(cfg, w, env).errors == []
    ensures CleanedPaths(Swept(cfg, w, env).all) == Unprotected(cfg, name, env.paths.value)
    ensures AllThere(env.paths.value, Run(cfg, w, env).world.files)
  {
    CalmRunMeetsNoError(cfg, w, env);
    CalmRunCleans(cfg, w, env, name);
    TruncateKeepsFiles(cfg, w, env);
  }

  /** A truncating run without writers removes no file. */
  lemma TruncateKeepsFiles(cfg: Config, w: World, env: Env)
    requires Fits(cfg, w, env) && env.paths.Some? && Calm(env) && cfg.mode.Truncate? && !cfg.dryRun
    ensures forall p :: p in w.files ==> p in Run(cfg, w, env).world.files
  {
    SweepStartsFresh(cfg, w, env);
    CalmScan(cfg, env.paths.value, env.probes, StartScan(w));
    forall p | p in w.files ensures p in Run(cfg, w, env).world.files {
      CalmSizes(cfg, env.acts, StartSweep(cfg, Scanned(cfg, w, env), env.order), p);
    }
  }

  lemma {:induction false} LogsStay(cfg: Config, w: World, h: seq<Event>, name: Path -> string, paths: seq<Path>)
    requires Legal(cfg, w, h) && SameRuns(cfg, h, name, paths) && AllThere(paths, w.files)
    requires cfg.mode.Truncate? && !cfg.dryRun
    ensures AllThere(paths, Replay(cfg, w, h).files)
    decreases |h|
  {
    if |h| > 0 {
      var n := |h| - 1;
      LogsStay(cfg, w, h[..n], name, paths);
      TruncateKeepsFiles(cfg, Replay(cfg, w, h[..n]), h[n].env);
    }
  }

  lemma LaterCleans(cfg: Config, w: World, h: seq<Event>, name: Path -> string, paths: seq<Path>, k: nat)
    requires Legal(cfg, w, h) && SameRuns(cfg, h, name, paths) && AllThere(paths, w.files) && Distinct(paths)
    requires cfg.mode.Truncate? && !cfg.dryRun && Threshold(cfg) <= 0 && k < |h|
    ensures CleansAt(cfg, w, h, k, Unprotected(cfg, name, paths))
  {
    LegalPrefix(cfg, w, h, k);
    assert SameRuns(cfg, h[..k], name, paths);
    LogsStay(cfg, w, h[..k], name, paths);
    RunRepeats(cfg, Replay(cfg, w, h[..k]), h[k].env, name);
  }

  lemma CleaningIsNotIdle(cfg: Config, w: World, h: seq<Event>, k: nat, logs: set<Path>, p: Path)
    requires Legal(cfg, w, h) && k < |h| && h[k].Ran? && h[k].env.paths.Some?
    requires CleansAt(cfg, w, h, k, logs) && p in logs
    ensures !IdleAt(cfg, w, h, k)
  {
    LegalPrefix(cfg, w, h, k);
    var w', env := Replay(cfg, w, h[..k]), h[k].env;
    var all := Swept(cfg, w', env).all;
    SweepStartsFresh(cfg, w', env);
    SweepCounts(cfg, env.acts, StartSweep(cfg, Scanned(cfg, w', env), env.order));
    var i :| 0 <= i < |all| && all[i].wasTruncated && all[i].path == p;
    SumAtLeast(all, i, Flagged);
  }

  lemma LogsAreThere(cfg: Config, w: World, env: Env, name: Path -> string)
    requires Fits(cfg, w, env) && env.paths.Some? && Calm(env) && Named(cfg, env, name)
    requires Swept(cfg, w, env).errors == [] && cfg.mode.Truncate? && !cfg.dryRun
    ensures AllThere(env.paths.value, Run(cfg, w, env).world.files)
  {
    TruncateKeepsFiles(cfg, w, env);
    forall i | 0 <= i < |env.paths.value| ensures env.paths.value[i] in w.files {
      var j := EntryOf(cfg, w, env, name, env.paths.value[i]);
    }
  }

  /**
   Where RunSettles does not settle, nothing ever does: after an error-free run every later
   one cleans the same logs again, all that are not excluded, although nobody writes. With
   CleaningConverges this says exactly when cleaning converges.
   */
  lemma NeverSettles(cfg: Config, w: World, env: Env, later: seq<Event>, name: Path -> string)
    requires Fits(cfg, w, env) && env.paths.Some? && Distinct(env.paths.value)
    requires !HandsOff(cfg) && !CanSettle(cfg, name, env.paths.value) && Calm(env) && Named(cfg, env, name)
    requires Swept(cfg, w, env).errors == []
    requires Legal(cfg, Run(cfg, w, env).world, later) && SameRuns(cfg, later, name, env.paths.value)
    ensures var w', logs := Run(cfg, w, env).world, Unprotected(cfg, name, env.paths.value);
      && logs != {} && CleanedPaths(Swept(cfg, w, env).all) == logs
      && forall k :: 0 <= k < |later| ==> CleansAt(cfg, w', later, k, logs) && !IdleAt(cfg, w', later, k)
  {
    var w', paths := Run(cfg, w, env).world, env.paths.value;
    var logs := Unprotected(cfg, name, paths);
    var p :| p in paths && name(p) !in cfg.excluded;
    assert p in logs;
    CalmRunCleans(cfg, w, env, name);
    LogsAreThere(cfg, w, env, name);
    forall k | 0 <= k < |later| ensures CleansAt(cfg, w', later, k, logs) && !IdleAt(cfg, w', later, k) {
      LaterCleans(cfg, w', later, name, paths, k);
      CleaningIsNotIdle(cfg, w', later, k, logs, p);
    }
  }

  /** Such runs exist, as many as one likes, for any distinct logs on disk. */
  lemma {:induction false} SameRunsExist(cfg: Config, w: World, paths: seq<Path>, k: nat) returns (h: seq<Event>)
    requires cfg.mode.Truncate? && !cfg.dryRun && Distinct(paths) && AllThere(paths, w.files)
    ensures Legal(cfg, w, h) && |h| == k && SameRuns(cfg, h, ContainerId, paths)
  {
    h := [];
    if k > 0 {
      var rest := SameRunsExist(cfg, w, paths, k - 1);
      LogsStay(cfg, w, rest, ContainerId, paths);
      var env := SameRunExists(cfg, Replay(cfg, w, rest), paths);
      ReplaySnoc(cfg, w, rest, Ran(env));
      h := rest + [Ran(env)];
    }
  }

  lemma SameRunExists(cfg: Config, w: World, paths: seq<Path>) returns (env: Env)
    requires AllThere(paths, w.files)
    ensures Fits(cfg, w, env) && SameRun(cfg, env, ContainerId, paths)
  {
    env := QuietRunExists(cfg, w, paths, Inspect.Failed, Inspect.Failed, 0);
  }

  function NotExcluded(e: ContainerLogEntry): int { One(!e.isExcluded) }

  /**
   With a threshold of zero or less, a run the kernel does not hinder cleans every entry that
   is not excluded, empty or not, whatever is appended meanwhile.
   */
  lemma NonPositiveThresholdCleansAll(cfg: Config, w: World, env: Env)
    requires Fits(cfg, w, env) && env.paths.Some? && Distinct(env.paths.value)
    requires !HandsOff(cfg) && Cooperates(env.acts) && Threshold(cfg) <= 0
    ensures Swept(cfg, w, env).cleaned == Sum(Listed(cfg, env.order), NotExcluded)
  {
    var s := StartSweep(cfg, Scanned(cfg, w, env), env.order);
    SweepStartsFresh(cfg, w, env);
    LogsStillThere(cfg, w, env);
    SweepTruncatesEligible(cfg, env.acts, s);
    SweepCounts(cfg, env.acts, s);
    SumEq(Swept(cfg, w, env).all, s.all, Flagged, NotExcluded);
  }
}
