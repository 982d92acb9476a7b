/** The theorems about one accepted call of Run, over every environment it can meet. */
module RunLaws {
  import opened Sums
  import opened LogFiles
  import opened Policies
  import opened Docker
  import opened Tables
  import opened Ranking
  import opened Cleanup
  import opened ScanLaws
  import opened SweepLaws

  /** The loop over the sorted entries starts from a clean slate. */
  lemma SweepStartsFresh(cfg: Config, w: World, env: Env)
    requires Fits(cfg, w, env) && env.paths.Some?
    ensures Fresh(StartSweep(cfg, Scanned(cfg, w, env), env.order))
    ensures |Scanned(cfg, w, env).entries| == |env.order|
  {
    ScanCounts(cfg, env.paths.value, env.probes, StartScan(w));
    SumBag(env.order, Scanned(cfg, w, env).entries, EntrySize);
  }

  // ---- accounting ----

  function IsBelow(cfg: Config): ContainerLogEntry -> int { (e: ContainerLogEntry) => One(Below(cfg, e)) }

  function IsOverExcluded(cfg: Config): ContainerLogEntry -> int {
    (e: ContainerLogEntry) => One(!Below(cfg, e) && e.isExcluded)
  }

  function NotEligible(cfg: Config): ContainerLogEntry -> int { (e: ContainerLogEntry) => One(!Eligible(cfg, e)) }

  /** Every discovered path, entry and error of a completed run is accounted for, in every mode. */
  ghost predicate Accounts(cfg: Config, discovered: nat, r: Result) {
    && discovered == |r.allEntries| + Sum(r.errors, InPhase(STAT))
    && |r.errors| == Sum(r.errors, InPhase(STAT)) + Sum(r.errors, InPhase(TRUNCATE))
    && |r.allEntries| == Sum(r.allEntries, IsBelow(cfg)) + Sum(r.allEntries, IsOverExcluded(cfg))
                         + Sum(r.allEntries, IsEligible(cfg))
    && r.logsCleaned == Sum(r.allEntries, Flagged)
    && r.dryRun == cfg.dryRun
    && (!cfg.dryRun ==> Sum(r.allEntries, IsEligible(cfg)) == r.logsCleaned + Sum(r.errors, InPhase(TRUNCATE)))
    && (cfg.dryRun ==> Sum(r.errors, InPhase(TRUNCATE)) == 0)
    && (HandsOff(cfg) ==> r.logsCleaned == 0 && r.reclaimed == 0)
  }

  lemma RunAccounts(cfg: Config, w: World, env: Env)
    requires Fits(cfg, w, env) && env.paths.Some?
    requires Run(cfg, w, env).ending.Completed?
    ensures Accounts(cfg, |env.paths.value|, Run(cfg, w, env).ending.result)
  {
    LoopsAccount(cfg, w, env);
    KindsAddUp(cfg, Swept(cfg, w, env).all);
    RunReports(cfg, w, env);
  }

  lemma LoopsAccount(cfg: Config, w: World, env: Env)
    requires Fits(cfg, w, env) && env.paths.Some?
    ensures var r := Swept(cfg, w, env);
      && |env.paths.value| == |r.all| + Sum(r.errors, InPhase(STAT))
      && |r.errors| == Sum(r.errors, InPhase(STAT)) + Sum(r.errors, InPhase(TRUNCATE))
      && r.cleaned == Sum(r.all, Flagged)
      && (!cfg.dryRun ==> Sum(r.all, IsEligible(cfg)) == r.cleaned + Sum(r.errors, InPhase(TRUNCATE)))
      && (cfg.dryRun ==> Sum(r.errors, InPhase(TRUNCATE)) == 0)
      && (HandsOff(cfg) ==> r.cleaned == 0 && r.reclaimed == 0)
  {
    var s := StartSweep(cfg, Scanned(cfg, w, env), env.order);
    SweepStartsFresh(cfg, w, env);
    ScanCounts(cfg, env.paths.value, env.probes, StartScan(w));
    SweepCounts(cfg, env.acts, s);
    SweepFlags(cfg, env.acts, s);
    assert s.all[..|env.acts|] == s.all;
    KindsKeep(cfg, Swept(cfg, w, env).all, s.all);
  }

  /** A completed run reports what its two loops counted. */
  lemma RunReports(cfg: Config, w: World, env: Env)
    requires Fits(cfg, w, env) && env.paths.Some?
    requires Run(cfg, w, env).ending.Completed?
    ensures var r, sweep := Run(cfg, w, env).ending.result, Swept(cfg, w, env);
      && r.allEntries == sweep.all && r.errors == sweep.errors && r.dryRun == cfg.dryRun
      && r.logsCleaned == sweep.cleaned && r.reclaimed == sweep.reclaimed
      && r.topConsumers == TopOf(cfg, Listed(cfg, env.order))
  {
  }

  lemma KindsKeep(cfg: Config, all: seq<ContainerLogEntry>, was: seq<ContainerLogEntry>)
    requires AllSameButFlag(all, was)
    ensures Sum(was, IsEligible(cfg)) == Sum(all, IsEligible(cfg))
  {
    forall i | 0 <= i < |all| ensures IsEligible(cfg)(was[i]) == IsEligible(cfg)(all[i]) {
      assert SameButFlag(all[i], was[i]);
    }
    SumEq(was, all, IsEligible(cfg), IsEligible(cfg));
  }

  lemma KindsAddUp(cfg: Config, all: seq<ContainerLogEntry>)
    ensures |all| == Sum(all, IsBelow(cfg)) + Sum(all, IsOverExcluded(cfg)) + Sum(all, IsEligible(cfg))
  {
    SumPlus(all, IsBelow(cfg), IsOverExcluded(cfg), NotEligible(cfg));
    ThreeKinds(cfg, all);
  }

  lemma {:induction false} ThreeKinds(cfg: Config, all: seq<ContainerLogEntry>)
    ensures |all| == Sum(all, NotEligible(cfg)) + Sum(all, IsEligible(cfg))
    decreases |all|
  {
    if |all| > 0 { ThreeKinds(cfg, all[..|all| - 1]); }
  }

  // ---- top consumers ----

  /**
   TopConsumers is the heaviest choice: as long as the setting allows, sorted, and no other
   choice of that many discovered entries weighs more. It is the prefix of AllEntries as it
   stood before the loop set flags in place.
   */
  lemma RunTopConsumers(cfg: Config, w: World, env: Env, choice: seq<LogEntry>)
    requires Fits(cfg, w, env) && env.paths.Some?
    requires Run(cfg, w, env).ending.Completed?
    ensures var r := Run(cfg, w, env).ending.result;
      && (var most := if cfg.topConsumers <= 0 then 5 else cfg.topConsumers;
          |r.topConsumers| == if most < |r.allEntries| then most else |r.allEntries|)
      && (forall i, j :: 0 <= i < j < |r.topConsumers| ==> r.topConsumers[i].size >= r.topConsumers[j].size)
      && AllSameButFlag(r.topConsumers, r.allEntries[..|r.topConsumers|])
      && (forall i :: 0 <= i < |r.topConsumers| ==> !r.topConsumers[i].wasTruncated)
      && (multiset(choice) <= multiset(Scanned(cfg, w, env).entries) && |choice| == |r.topConsumers|
          ==> FoundBytes(choice) <= ListedBytes(r.topConsumers))
  {
    SweepStartsFresh(cfg, w, env);
    SweepFlags(cfg, env.acts, StartSweep(cfg, Scanned(cfg, w, env), env.order));
    TopPrefix(cfg, env.order, Swept(cfg, w, env).all);
    RunReports(cfg, w, env);
    TopIsHeaviest(cfg, env.order, Scanned(cfg, w, env).entries, choice);
    TopDescends(TopOf(cfg, Listed(cfg, env.order)));
    FoundBytesAre(choice);
    ListedBytesAre(TopOf(cfg, Listed(cfg, env.order)));
  }

  lemma TopDescends(top: seq<ContainerLogEntry>)
    requires Descending(top, ListedSize)
    ensures forall i, j :: 0 <= i < j < |top| ==> top[i].size >= top[j].size
  {
    forall i, j | 0 <= i < j < |top| ensures top[i].size >= top[j].size {
      assert ListedSize(top[i]) >= ListedSize(top[j]);
    }
  }

  /** The bytes of these discovered logs together. */
  function FoundBytes(entries: seq<LogEntry>): nat {
    if |entries| == 0 then 0 else FoundBytes(entries[..|entries| - 1]) + entries[|entries| - 1].size
  }

  function ListedBytes(entries: seq<ContainerLogEntry>): nat {
    if |entries| == 0 then 0 else ListedBytes(entries[..|entries| - 1]) + entries[|entries| - 1].size
  }

  lemma {:induction false} FoundBytesAre(entries: seq<LogEntry>)
    ensures FoundBytes(entries) == Sum(entries, EntrySize)
    decreases |entries|
  {
    if |entries| > 0 { FoundBytesAre(entries[..|entries| - 1]); }
  }

  lemma {:induction false} ListedBytesAre(entries: seq<ContainerLogEntry>)
    ensures ListedBytes(entries) == Sum(entries, ListedSize)
    decreases |entries|
  {
    if |entries| > 0 { ListedBytesAre(entries[..|entries| - 1]); }
  }

  lemma TopIsHeaviest(cfg: Config, order: seq<LogEntry>, found: seq<LogEntry>, choice: seq<LogEntry>)
    requires Ranks(order, found, EntrySize)
    ensures var top := TopOf(cfg, Listed(cfg, order));
      multiset(choice) <= multiset(found) && |choice| == |top| ==> Sum(choice, EntrySize) <= Sum(top, ListedSize)
  {
    var top := TopOf(cfg, Listed(cfg, order));
    if multiset(choice) <= multiset(found) && |choice| == |top| {
      PrefixIsHeaviest(order, found, EntrySize, choice);
      SumEq(order[..|choice|], top, EntrySize, ListedSize);
    }
  }

  lemma TopPrefix(cfg: Config, order: seq<LogEntry>, all: seq<ContainerLogEntry>)
    requires Descending(order, EntrySize) && AllSameButFlag(all, Listed(cfg, order))
    ensures var top := TopOf(cfg, Listed(cfg, order));
      && |top| == (if TopN(cfg) < |all| then TopN(cfg) else |all|)
      && Descending(top, ListedSize)
      && AllSameButFlag(top, all[..|top|])
      && (forall i :: 0 <= i < |top| ==> !top[i].wasTruncated)
  {
    var top := TopOf(cfg, Listed(cfg, order));
    forall i, j | 0 <= i < j < |top| ensures ListedSize(top[i]) >= ListedSize(top[j]) {
      assert EntrySize(order[i]) >= EntrySize(order[j]);
    }
    forall i | 0 <= i < |top| ensures SameButFlag(top[i], all[..|top|][i]) {
      assert SameButFlag(all[i], Listed(cfg, order)[i]);
    }
  }

  // ---- conservation of bytes ----

  /** Every append of the environment, in the order they land. */
  function EnvWrites(env: Env): seq<Append> { ProbeWrites(env.probes) + ActsWrites(env.acts) }

  /**
   What is on disk after the run, plus what it reports as reclaimed, plus what was appended
   to truncated logs between their policy's stat and its change, is what was there before
   plus everything appended meanwhile. So reclaimed never exceeds what was removed.
   */
  lemma RunConserves(cfg: Config, w: World, env: Env)
    requires Fits(cfg, w, env) && env.paths.Some?
    ensures var sweep := Swept(cfg, w, env);
      var out := Run(cfg, w, env);
      && TotalBytes(out.world.files) + sweep.reclaimed + Gap(env.acts, sweep.all)
         == TotalBytes(w.files) + BytesIn(EnvWrites(env))
      && 0 <= Gap(env.acts, sweep.all)
      && (out.ending.Completed? ==>
            out.ending.result.reclaimed == sweep.reclaimed && out.ending.result.allEntries == sweep.all)
  {
    var s := StartSweep(cfg, Scanned(cfg, w, env), env.order);
    SweepStartsFresh(cfg, w, env);
    ScanCounts(cfg, env.paths.value, env.probes, StartScan(w));
    TotalWritten(w.files, ProbeWrites(env.probes));
    SweepConserves(cfg, env.acts, s);
    GapNonNegative(env.acts, Swept(cfg, w, env).all);
    SumConcat(ProbeWrites(env.probes), ActsWrites(env.acts), BytesOf);
  }

  lemma LogsStillThere(cfg: Config, w: World, env: Env)
    requires Fits(cfg, w, env) && env.paths.Some? && Distinct(env.paths.value)
    ensures var s := StartSweep(cfg, Scanned(cfg, w, env), env.order);
      DistinctLogs(s.all) && StillThere(s.all, s.files, 0)
  {
    var s := StartSweep(cfg, Scanned(cfg, w, env), env.order);
    EntriesDistinct(cfg, env.paths.value, env.probes, StartScan(w), env.order);
    forall i | 0 <= i < |s.all| ensures s.all[i].path in s.files && s.all[i].size <= s.files[s.all[i].path] {
      SameElements(env.order, Scanned(cfg, w, env).entries, EntrySize, env.order[i]);
      ScanSizes(cfg, env.paths.value, env.probes, StartScan(w), env.order[i]);
    }
  }

  lemma {:induction false} FlaggedOverThreshold(cfg: Config, all: seq<ContainerLogEntry>)
    requires forall i :: 0 <= i < |all| && all[i].wasTruncated ==> Threshold(cfg) <= all[i].size
    ensures Sum(all, Flagged) * Threshold(cfg) <= Sum(all, FlaggedSize)
    decreases |all|
  {
    if |all| > 0 {
      var n := |all| - 1;
      FlaggedOverThreshold(cfg, all[..n]);
      var k, t := Sum(all[..n], Flagged), Threshold(cfg);
      assert (k + 1) * t == k * t + t;
      if all[n].wasTruncated {
        assert Flagged(all[n]) == 1 && FlaggedSize(all[n]) == all[n].size;
      } else {
        assert Flagged(all[n]) == 0 && FlaggedSize(all[n]) == 0;
      }
    }
  }

  /**
   With distinct paths the reclaimed bytes are at least the discovered sizes of the logs
   truncated, hence at least LogsCleaned times the threshold, whatever is appended meanwhile.
   */
  lemma RunReclaimsAtLeast(cfg: Config, w: World, env: Env)
    requires Fits(cfg, w, env) && env.paths.Some? && Distinct(env.paths.value)
    ensures var sweep := Swept(cfg, w, env);
      && Sum(sweep.all, FlaggedSize) <= sweep.reclaimed
      && sweep.cleaned * Threshold(cfg) <= sweep.reclaimed
  {
    var s := StartSweep(cfg, Scanned(cfg, w, env), env.order);
    SweepStartsFresh(cfg, w, env);
    LogsStillThere(cfg, w, env);
    SweepReclaims(cfg, env.acts, s);
    SweepCounts(cfg, env.acts, s);
    SweepFlags(cfg, env.acts, s);
    FlaggedOverThreshold(cfg, Swept(cfg, w, env).all);
  }

  // ---- dry run ----

  /** The two environments agree on everything a run learns before it decides. */
  predicate SameDiscovery(a: Env, b: Env) {
    a.paths == b.paths && a.probes == b.probes && a.order == b.order
  }

  /**
   A dry run logs as "would truncate" exactly the paths that a real run with the same
   discovery hands to its policy, in the same order, and reports the same entries; it
   changes no file and reports nothing cleaned. What the policy meets does not matter.
   */
  lemma DryRunPredicts(cfg: Config, w: World, dryEnv: Env, realEnv: Env)
    requires !cfg.dryRun && dryEnv.paths.Some? && SameDiscovery(dryEnv, realEnv)
    requires Fits(cfg.(dryRun := true), w, dryEnv) && Fits(cfg, w, realEnv)
    ensures var dryCfg := cfg.(dryRun := true);
      var dry, live := Run(dryCfg, w, dryEnv), Run(cfg, w, realEnv);
      var ds, rs := Swept(dryCfg, w, dryEnv), Swept(cfg, w, realEnv);
      && DryLog(dry.log) && RealLog(live.log) && Handled(dry.log) == Handled(live.log)
      && dry.world.files == WrittenAll(w.files, EnvWrites(dryEnv))
      && ds.cleaned == 0 && ds.reclaimed == 0 && AllSameButFlag(ds.all, rs.all)
      && (dry.ending.Completed? && live.ending.Completed? ==>
            && dry.ending.result.topConsumers == live.ending.result.topConsumers
            && AllSameButFlag(dry.ending.result.allEntries, live.ending.result.allEntries)
            && dry.ending.result.logsCleaned == 0 && dry.ending.result.reclaimed == 0)
  {
    var dryCfg := cfg.(dryRun := true);
    SameScan(cfg, dryCfg, dryEnv.paths.value, dryEnv.probes, StartScan(w));
    assert Listed(cfg, realEnv.order) == Listed(dryCfg, dryEnv.order);
    SweepStartsFresh(cfg, w, realEnv);
    DrySweepPredicts(cfg, StartSweep(cfg, Scanned(cfg, w, realEnv), realEnv.order), dryEnv.acts, realEnv.acts);
    ScanCounts(dryCfg, dryEnv.paths.value, dryEnv.probes, StartScan(w));
    WrittenAllConcat(w.files, ProbeWrites(dryEnv.probes), ActsWrites(dryEnv.acts));
  }

  lemma DrySweepPredicts(cfg: Config, s: Sweep, dryActs: seq<Act>, realActs: seq<Act>)
    requires !cfg.dryRun && Fresh(s) && |dryActs| == |realActs| == |s.all|
    ensures var ds, rs := SweepAll(cfg.(dryRun := true), dryActs, s), SweepAll(cfg, realActs, s);
      && DryLog(ds.log) && RealLog(rs.log) && Handled(ds.log) == Handled(rs.log)
      && ds.files == WrittenAll(s.files, ActsWrites(dryActs))
      && ds.cleaned == 0 && ds.reclaimed == 0 && AllSameButFlag(ds.all, rs.all)
  {
    var dryCfg := cfg.(dryRun := true);
    assert s.all[..|s.all|] == s.all;
    SweepLog(cfg, realActs, s);
    SweepLog(dryCfg, dryActs, s);
    SameEligible(cfg, dryCfg, s.all);
    SweepFlags(cfg, realActs, s);
    SweepFlags(dryCfg, dryActs, s);
    SweepCounts(dryCfg, dryActs, s);
    SweepHandsOff(dryCfg, dryActs, s);
    SameFlagsJoin(SweepAll(dryCfg, dryActs, s).all, s.all, SweepAll(cfg, realActs, s).all);
  }

  lemma SameFlagsJoin(a: seq<ContainerLogEntry>, b: seq<ContainerLogEntry>, c: seq<ContainerLogEntry>)
    requires AllSameButFlag(a, b) && AllSameButFlag(c, b)
    ensures AllSameButFlag(a, c)
  {
    forall i | 0 <= i < |a| ensures SameButFlag(a[i], c[i]) {
      assert SameButFlag(a[i], b[i]) && SameButFlag(c[i], b[i]);
    }
  }

  lemma {:induction false} SameScan(a: Config, b: Config, paths: seq<Path>, probes: seq<Probe>, s: Scan)
    requires |probes| <= |paths| && b == a.(dryRun := b.dryRun)
    ensures ScanAll(a, paths, probes, s) == ScanAll(b, paths, probes, s)
    decreases |probes|
  {
    if |probes| > 0 { SameScan(a, b, paths, probes[..|probes| - 1], s); }
  }

  lemma {:induction false} SameEligible(a: Config, b: Config, all: seq<ContainerLogEntry>)
    requires b == a.(dryRun := b.dryRun)
    ensures EligiblePaths(a, all) == EligiblePaths(b, all)
    decreases |all|
  {
    if |all| > 0 { SameEligible(a, b, all[..|all| - 1]); }
  }

  // ---- which logs are touched ----

  /** No entry discovered for this path is eligible. */
  ghost predicate NeverEligible(cfg: Config, entries: seq<LogEntry>, path: Path) {
    forall e :: e in entries && e.path == path ==> !Eligible(cfg, ToListed(cfg, e))
  }

  /** A log that is below the threshold or excluded whenever it is seen holds what was appended to it. */
  lemma RunSpares(cfg: Config, w: World, env: Env, path: Path)
    requires Fits(cfg, w, env) && env.paths.Some?
    requires HandsOff(cfg) || NeverEligible(cfg, Scanned(cfg, w, env).entries, path)
    ensures OnlyGrew(w.files, EnvWrites(env), Run(cfg, w, env).world.files, path)
  {
    var scan := Scanned(cfg, w, env);
    var s := StartSweep(cfg, scan, env.order);
    SweepStartsFresh(cfg, w, env);
    ScanCounts(cfg, env.paths.value, env.probes, StartScan(w));
    WrittenAllSize(w.files, ProbeWrites(env.probes), path);
    assert s.all[..|env.acts|] == s.all;
    if !HandsOff(cfg) {
      forall i | 0 <= i < |s.all| && s.all[i].path == path ensures !Eligible(cfg, s.all[i]) {
        SameElements(env.order, scan.entries, EntrySize, env.order[i]);
      }
    }
    SweepSpares(cfg, env.acts, s, path);
    OnlyGrewThen(w.files, ProbeWrites(env.probes), scan.files, ActsWrites(env.acts), Swept(cfg, w, env).files, path);
  }

  /** In this environment the path resolves to an excluded name every time it is stated. */
  predicate AlwaysExcluded(cfg: Config, env: Env, path: Path) {
    env.paths.Some? ==> forall i :: 0 <= i < |env.probes| && i < |env.paths.value| && env.paths.value[i] == path ==>
      ResolvedName(cfg, path, env.probes[i].inspect) in cfg.excluded
  }

  lemma ExcludedIsNeverEligible(cfg: Config, w: World, env: Env, path: Path)
    requires Fits(cfg, w, env) && env.paths.Some? && AlwaysExcluded(cfg, env, path)
    ensures NeverEligible(cfg, Scanned(cfg, w, env).entries, path)
  {
    forall e | e in Scanned(cfg, w, env).entries && e.path == path ensures !Eligible(cfg, ToListed(cfg, e)) {
      ScanFound(cfg, env.paths.value, env.probes, StartScan(w), e);
      var i: nat :| FoundAt(cfg, env.paths.value, env.probes, e, i);
      assert env.paths.value[i] == path;
    }
  }

  /**
   Every flagged entry was built by a stat of this run that found it at or above the
   threshold under a name that is not excluded; and only a real run in an implemented mode
   flags any.
   */
  lemma OnlyEligibleAreTruncated(cfg: Config, w: World, env: Env, k: nat)
    requires Fits(cfg, w, env) && env.paths.Some?
    requires k < |env.order| && Swept(cfg, w, env).all[k].wasTruncated
    ensures !cfg.dryRun && Implemented(cfg.mode)
    ensures Threshold(cfg) <= env.order[k].size
    ensures exists i: nat :: (
      && FoundAt(cfg, env.paths.value, env.probes, env.order[k], i)
      && ResolvedName(cfg, env.paths.value[i], env.probes[i].inspect) !in cfg.excluded)
  {
    var s := StartSweep(cfg, Scanned(cfg, w, env), env.order);
    SweepStartsFresh(cfg, w, env);
    SweepFlags(cfg, env.acts, s);
    assert SameButFlag(Swept(cfg, w, env).all[k], s.all[k]);
    SameElements(env.order, Scanned(cfg, w, env).entries, EntrySize, env.order[k]);
    ScanFound(cfg, env.paths.value, env.probes, StartScan(w), env.order[k]);
    var i: nat :| FoundAt(cfg, env.paths.value, env.probes, env.order[k], i);
  }

  // ---- exactly which logs are truncated when the kernel cooperates ----

  predicate Cooperates(acts: seq<Act>) {
    forall i :: 0 <= i < |acts| ==> acts[i].stat.ok && acts[i].change.ok
  }

  lemma {:induction false} SweepTruncatesEligible(cfg: Config, acts: seq<Act>, s: Sweep)
    requires |acts| <= |s.all| && Fresh(s) && DistinctLogs(s.all) && StillThere(s.all, s.files, 0)
    requires !HandsOff(cfg) && Cooperates(acts)
    ensures var r := SweepAll(cfg, acts, s);
      forall i :: 0 <= i < |acts| ==> (r.all[i].wasTruncated <==> Eligible(cfg, s.all[i]))
    decreases |acts|
  {
    if |acts| > 0 {
      var n := |acts| - 1;
      SweepTruncatesEligible(cfg, acts[..n], s);
      SweepFlags(cfg, acts[..n], s);
      SweepReclaims(cfg, acts[..n], s);
      var before := SweepAll(cfg, acts[..n], s);
      assert SameButFlag(before.all[n], s.all[n]);
      WrittenAllSize(before.files, acts[n].stat.writes, before.all[n].path);
      WrittenAllSize(WrittenAll(before.files, acts[n].stat.writes), acts[n].change.writes, before.all[n].path);
    }
  }

  /**
   The documentation says excluded containers are never truncated. For a log at or above
   the threshold whose container really is called `name`, an excluded name, that is true
   exactly when Docker answers the inspect call, or the raw id is in the list as well: the
   code falls back to the id when inspect fails.
   */
  lemma ExclusionHoldsExactly(cfg: Config, w: World, env: Env, k: nat, i: nat, name: string)
    requires Fits(cfg, w, env) && env.paths.Some? && Distinct(env.paths.value)
    requires !HandsOff(cfg) && Cooperates(env.acts)
    requires k < |env.order| && FoundAt(cfg, env.paths.value, env.probes, env.order[k], i)
    requires Threshold(cfg) <= env.order[k].size
    requires name in cfg.excluded
    requires var answer := env.probes[i].inspect; answer.Found? ==> answer.name == "/" + name
    ensures !Swept(cfg, w, env).all[k].wasTruncated <==>
      (cfg.hasDocker && env.probes[i].inspect.Found?) || ContainerId(env.paths.value[i]) in cfg.excluded
  {
    var s := StartSweep(cfg, Scanned(cfg, w, env), env.order);
    SweepStartsFresh(cfg, w, env);
    LogsStillThere(cfg, w, env);
    SweepTruncatesEligible(cfg, env.acts, s);
    NameIsExcluded(cfg, env.paths.value[i], env.probes[i].inspect, name);
    assert s.all[k].isExcluded == (env.order[k].name in cfg.excluded);
  }

  lemma NameIsExcluded(cfg: Config, path: Path, answer: Inspect, name: string)
    requires name in cfg.excluded
    requires answer.Found? ==> answer.name == "/" + name
    ensures ResolvedName(cfg, path, answer) in cfg.excluded <==>
      (cfg.hasDocker && answer.Found?) || ContainerId(path) in cfg.excluded
  {
    assert ("/" + name)[1..] == name;
  }

  // ---- panics ----

  /** The second inspect of some entry fails, and its id is too short for the fallback name. */
  ghost predicate ShortIdFails(cfg: Config, env: Env) {
    cfg.hasDocker && env.paths.Some? &&
    exists i :: 0 <= i < |env.order| && i < |env.inspects| && SliceFails(env.order[i].cid, env.inspects[i])
  }

  /**
   Run panics exactly when it talks to Docker and the second inspect of some entry with an
   id shorter than twelve characters fails. By then the files have been changed, but neither
   the run row, nor the last result, nor anything a caller could count exists.
   */
  lemma RunPanicsExactly(cfg: Config, w: World, env: Env)
    requires Fits(cfg, w, env) && env.paths.Some?
    ensures var out := Run(cfg, w, env);
      && (out.ending.Panicked? <==> ShortIdFails(cfg, env))
      && (out.ending.Panicked? ==>
            && out.world.files == Swept(cfg, w, env).files
            && out.world.last == w.last
            && out.world.db.runs == w.db.runs && out.world.db.cleans == w.db.cleans)
      && !out.ending.DiscoverFailed?
  {
    var ids := EntryIds(env.order);
    if AnySliceFails(ids, env.inspects) {
      var i :| 0 <= i < |ids| && SliceFails(ids[i], env.inspects[i]);
      assert SliceFails(env.order[i].cid, env.inspects[i]);
    } else {
      forall i | 0 <= i < |env.order| ensures !SliceFails(env.order[i].cid, env.inspects[i]) {
        assert SlicesHold(ids, env.inspects, |ids|);
        assert !SliceFails(ids[i], env.inspects[i]);
      }
    }
  }

  // ---- insights ----

  /** In a descending list the first match carries the largest size. */
  lemma {:induction false} FirstIsLargest(order: seq<LogEntry>, k: nat)
    requires Descending(order, EntrySize) && k < |order|
    ensures var n := FirstSize(order, order[k].cid);
      && n.Some? && order[k].size <= n.value
      && exists j :: 0 <= j < |order| && order[j].cid == order[k].cid && order[j].size == n.value
    decreases |order|
  {
    if order[0].cid == order[k].cid {
      assert EntrySize(order[0]) >= EntrySize(order[k]);
    } else {
      var rest := order[1..];
      assert rest[k - 1] == order[k];
      assert Descending(rest, EntrySize) by {
        forall i, j | 0 <= i < j < |rest| ensures EntrySize(rest[i]) >= EntrySize(rest[j]) {
          assert EntrySize(order[i + 1]) >= EntrySize(order[j + 1]);
        }
      }
      FirstIsLargest(rest, k - 1);
      var j :| 0 <= j < |rest| && rest[j].cid == order[k].cid && rest[j].size == FirstSize(rest, order[k].cid).value;
      assert order[j + 1] == rest[j];
    }
  }

  /** The largest size among the entries with this id. */
  ghost predicate IsLargest(order: seq<LogEntry>, cid: string, size: nat) {
    && (forall k :: 0 <= k < |order| && order[k].cid == cid ==> order[k].size <= size)
    && (exists k :: 0 <= k < |order| && order[k].cid == cid && order[k].size == size)
  }

  /** Insights follow the sorted entries one for one, each with the largest size of its container. */
  lemma RunInsightsJoin(cfg: Config, w: World, env: Env, i: nat)
    requires Fits(cfg, w, env) && env.paths.Some? && cfg.hasDocker
    requires Run(cfg, w, env).ending.Completed?
    requires i < |env.order|
    ensures var insights := Run(cfg, w, env).ending.result.insights;
      && |insights| == |env.order|
      && insights[i].id == env.order[i].cid
      && IsLargest(env.order, insights[i].id, insights[i].logSize)
  {
    var cid := env.order[i].cid;
    FirstIsLargest(env.order, i);
    forall k | 0 <= k < |env.order| && env.order[k].cid == cid
      ensures env.order[k].size <= FirstSize(env.order, cid).value
    {
      FirstIsLargest(env.order, k);
    }
  }

  /** The name under which a container is listed for the recommendations. */
  function InsightName(cid: string, answer: Inspect): string
    requires !SliceFails(cid, answer)
  {
    if answer.Found? then TrimSlash(answer.name) else cid[..12]
  }

  /** It is decided by the second inspect, while the rows carry the name that the first one gave. */
  lemma RunInsightNames(cfg: Config, w: World, env: Env, i: nat)
    requires Fits(cfg, w, env) && env.paths.Some? && cfg.hasDocker
    requires Run(cfg, w, env).ending.Completed? && i < |env.order|
    ensures var insights := Run(cfg, w, env).ending.result.insights;
      && |insights| == |env.order| && !SliceFails(env.order[i].cid, env.inspects[i])
      && insights[i].name == InsightName(env.order[i].cid, env.inspects[i])
  {
    var ids := EntryIds(env.order);
    RunPanicsExactly(cfg, w, env);
    assert !SliceFails(env.order[i].cid, env.inspects[i]);
    assert !AnySliceFails(ids, env.inspects);
  }

  /**
   With the same answer in both rounds, the row and the insight of an entry bear the same
   name exactly when Docker answered, or the id has twelve characters.
   */
  lemma RowsAndInsightsAgreeExactly(cfg: Config, w: World, env: Env, i: nat, k: nat)
    requires Fits(cfg, w, env) && env.paths.Some? && cfg.hasDocker
    requires Run(cfg, w, env).ending.Completed? && i < |env.order|
    requires FoundAt(cfg, env.paths.value, env.probes, env.order[i], k) && env.inspects[i] == env.probes[k].inspect
    ensures var r := Run(cfg, w, env).ending.result;
      && |r.allEntries| == |r.insights| == |env.order|
      && (r.allEntries[i].name == r.insights[i].name <==> env.inspects[i].Found? || |env.order[i].cid| == 12)
  {
    RunInsightNames(cfg, w, env, i);
    RunReports(cfg, w, env);
    SweepStartsFresh(cfg, w, env);
    var s := StartSweep(cfg, Scanned(cfg, w, env), env.order);
    SweepFlags(cfg, env.acts, s);
    assert SameButFlag(Swept(cfg, w, env).all[i], s.all[i]);
    NamesAgree(env.order[i].cid, env.inspects[i]);
  }

  lemma NamesAgree(cid: string, answer: Inspect)
    requires !SliceFails(cid, answer)
    ensures answer.Failed? ==> (cid == InsightName(cid, answer) <==> |cid| == 12)
  {
    if |cid| == 12 { assert cid[..12] == cid; }
  }

  // ---- the books of one run ----

  /** One run keeps every run row equal to its truncated child rows, and every child parented. */
  lemma RunKeepsBooks(cfg: Config, w: World, env: Env)
    requires Fits(cfg, w, env) && Books(w.db)
    ensures Books(Run(cfg, w, env).world.db)
  {
    if env.paths.Some? {
      var snapped := w.db.(snapshots := Scanned(cfg, w, env).snapshots);
      assert Books(snapped) by {
        forall k | 0 <= k < |snapped.runs|
          ensures Balanced(snapped, snapped.runs[k].id, snapped.runs[k].logsCleaned)
        {
          assert Balanced(w.db, w.db.runs[k].id, w.db.runs[k].logsCleaned);
        }
      }
      var out := Run(cfg, w, env);
      if out.ending.Completed? && cfg.hasDb {
        var r := out.ending.result;
        RunAccounts(cfg, w, env);
        SumEq(ToCleanInputs(r.allEntries), r.allEntries, TruncatedInput, Flagged);
        RecordBooks(snapped, ToRunInput(cfg, r), env.at, env.fault);
      }
    }
  }
}
