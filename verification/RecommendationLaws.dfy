/** When a recommendation means what the documentation says: cleaned that often in the window. */
module RecommendationLaws {
  import opened Sums
  import opened LogFiles
  import opened Docker
  import opened Tables
  import opened Cleanup
  import opened SweepLaws
  import opened RunLaws
  import opened History
  import opened Convergence
  import opened Recording
  import opened Storage
  import Recommendation

  /** How often a container of this name was really truncated in the window. */
  function TruncatedCount(db: Db, name: string, now: int, days: int): int {
    Sum(db.cleans, Recommendation.TruncatedHit(name, now, days))
  }

  /** Some recent row of this name was not truncated. */
  ghost predicate SparedRecently(db: Db, name: string, now: int, days: int) {
    exists i :: 0 <= i < |db.cleans| && Hit(name, now, days)(db.cleans[i]) == 1 && !db.cleans[i].wasTruncated
  }

  /** The count that is compared with the trigger counts truncations exactly when no recent row was spared. */
  lemma CountMeansTruncated(db: Db, name: string, now: int, days: int)
    ensures TruncatedCount(db, name, now, days) <= CleanupCount(db, name, now, days)
    ensures CleanupCount(db, name, now, days) == TruncatedCount(db, name, now, days)
      <==> !SparedRecently(db, name, now, days)
  {
    var f, g := Recommendation.TruncatedHit(name, now, days), Hit(name, now, days);
    SumLe(db.cleans, db.cleans, f, g);
    if Sum(db.cleans, f) == Sum(db.cleans, g) {
      SumTight(db.cleans, f, g);
      forall i | 0 <= i < |db.cleans| && g(db.cleans[i]) == 1 ensures db.cleans[i].wasTruncated {
        assert f(db.cleans[i]) == g(db.cleans[i]);
      }
    }
    if !SparedRecently(db, name, now, days) {
      forall i | 0 <= i < |db.cleans| ensures f(db.cleans[i]) == g(db.cleans[i]) {
        if g(db.cleans[i]) == 1 { assert db.cleans[i].wasTruncated; }
      }
      SumEq(db.cleans, db.cleans, f, g);
    }
  }

  /** As documented: for every trigger the name is recommended when it was truncated that often, and only then. */
  ghost predicate AsDocumented(db: Db, now: int, days: int, insights: seq<Insight>, answers: seq<Option<int>>, name: string)
    requires |answers| == |insights|
  {
    forall trigger: int ::
      Recommendation.Recommended(Recommendation.Expected(insights, answers, days, trigger, |insights|), name)
      <==> trigger <= TruncatedCount(db, name, now, days)
  }

  /**
   For every name: the documentation is right about it exactly when its query is made and
   answered, so when it is the name of an insight, and no recent row of it was spared.
   */
  lemma RecommendedAsDocumentedExactly(db: Db, now: int, days: int, insights: seq<Insight>, answers: seq<Option<int>>, name: string)
    requires Recommendation.Truthful(db, now, days, insights, answers, name)
    ensures AsDocumented(db, now, days, insights, answers, name)
      <==> Recommendation.Asked(insights, answers, name) && !SparedRecently(db, name, now, days)
  {
    CountMeansTruncated(db, name, now, days);
    var count, truncated := CleanupCount(db, name, now, days), TruncatedCount(db, name, now, days);
    forall trigger: int
      ensures Recommendation.Recommended(Recommendation.Expected(insights, answers, days, trigger, |insights|), name)
        <==> Recommendation.Asked(insights, answers, name) && trigger <= count
    {
      Recommendation.RecommendedExactly(db, now, days, trigger, insights, answers, name);
    }
    if AsDocumented(db, now, days, insights, answers, name) {
      assert Recommendation.Recommended(Recommendation.Expected(insights, answers, days, truncated, |insights|), name);
      assert Recommendation.Recommended(Recommendation.Expected(insights, answers, days, count, |insights|), name);
    }
  }

  /** Some second inspect of this run gives the name: by its answer, or by failing for an id that starts with it. */
  ghost predicate NamedBySecond(env: Env, name: string) {
    exists i :: 0 <= i < |env.order| && i < |env.inspects|
      && !SliceFails(env.order[i].cid, env.inspects[i]) && InsightName(env.order[i].cid, env.inspects[i]) == name
  }

  /** The same after a run, in what a caller sees: the second inspects, and the rows of the name. */
  lemma RunAdvisesAsDocumentedExactly(cfg: Config, w: World, env: Env, db: Db, now: int, days: int,
                                      answers: seq<Option<int>>, name: string)
    requires Fits(cfg, w, env) && env.paths.Some? && cfg.hasDocker && Run(cfg, w, env).ending.Completed?
    requires Recommendation.AnsweredFrom(db, now, days, Run(cfg, w, env).ending.result.insights, answers)
    requires name != ""
    ensures AsDocumented(db, now, days, Run(cfg, w, env).ending.result.insights, answers, name)
      <==> NamedBySecond(env, name) && !SparedRecently(db, name, now, days)
  {
    var insights := Run(cfg, w, env).ending.result.insights;
    Recommendation.ListedIsAsked(db, now, days, insights, answers, name);
    RecommendedAsDocumentedExactly(db, now, days, insights, answers, name);
    RunListsExactly(cfg, w, env, name);
  }

  lemma RunListsExactly(cfg: Config, w: World, env: Env, name: string)
    requires Fits(cfg, w, env) && env.paths.Some? && cfg.hasDocker && Run(cfg, w, env).ending.Completed?
    ensures Recommendation.Listed(Run(cfg, w, env).ending.result.insights, name) <==> NamedBySecond(env, name)
  {
    var insights := Run(cfg, w, env).ending.result.insights;
    RunPanicsExactly(cfg, w, env);
    if Recommendation.Listed(insights, name) {
      if |env.order| > 0 { RunInsightNames(cfg, w, env, 0); }
      var i :| 0 <= i < |insights| && insights[i].name == name;
      RunInsightNames(cfg, w, env, i);
    }
    if NamedBySecond(env, name) {
      var i :| 0 <= i < |env.order| && i < |env.inspects|
        && !SliceFails(env.order[i].cid, env.inspects[i]) && InsightName(env.order[i].cid, env.inspects[i]) == name;
      RunInsightNames(cfg, w, env, i);
    }
  }

  // ---- dry runs alone lead to a recommendation ----

  /** The run lists the name once, changes no file, truncates nothing, and is recorded at this time. */
  ghost predicate ListsOnce(cfg: Config, w: World, env: Env, name: string, now: int, days: int)
    requires Fits(cfg, w, env)
  {
    var out := Run(cfg, w, env);
    && out.ending.Completed? && out.world.files == w.files
    && |out.ending.result.insights| == 1 && out.ending.result.insights[0].name == name
    && CleanupCount(out.world.db, name, now, days) == CleanupCount(w.db, name, now, days) + 1
    && TruncatedCount(out.world.db, name, now, days) == TruncatedCount(w.db, name, now, days)
  }

  /** Docker's answer about a container of this name. */
  lemma AnswerWith(name: string) returns (answer: Inspect)
    ensures answer.Found? && answer.name == "/" + name && TrimSlash(answer.name) == name
  {
    answer := Inspect.Found("/" + name, "", "", "", 0);
    assert answer.name[1..] == name;
  }

  /** A dry run over one log of a container of this name. */
  lemma DryRunListsOnce(cfg: Config, w: World, path: Path, name: string, now: int, days: nat) returns (env: Env)
    requires cfg.dryRun && cfg.hasDocker && cfg.hasDb && path in w.files
    ensures Fits(cfg, w, env) && ListsOnce(cfg, w, env, name, now, days)
  {
    var answer := AnswerWith(name);
    env := QuietRunExists(cfg, w, [path], answer, answer, now);
    DryRunCompletes(cfg, w, env, path, name);
    ListedRunCounts(cfg, w, env, name, now, days);
  }

  /** A completed run that shows one log, spared, under this name. */
  ghost predicate ShowsOneSpared(cfg: Config, w: World, env: Env, name: string)
    requires Fits(cfg, w, env)
  {
    var out := Run(cfg, w, env);
    && out.ending.Completed? && out.world.files == w.files
    && |out.ending.result.allEntries| == 1 && out.ending.result.allEntries[0].name == name
    && !out.ending.result.allEntries[0].wasTruncated
    && |out.ending.result.insights| == 1 && out.ending.result.insights[0].name == name
  }

  lemma ListedRunCounts(cfg: Config, w: World, env: Env, name: string, now: int, days: nat)
    requires Fits(cfg, w, env) && ShowsOneSpared(cfg, w, env, name)
    requires cfg.hasDb && env.fault.NoFault? && env.at == now
    ensures ListsOnce(cfg, w, env, name, now, days)
  {
    OneRowMore(cfg, w, env, name, now, days);
    SparedRowsCount(cfg, w, env, name, now, days);
  }

  /** A run that is recorded now with one entry, of this name, adds one to the count. */
  lemma OneRowMore(cfg: Config, w: World, env: Env, name: string, now: int, days: nat)
    requires Fits(cfg, w, env) && Run(cfg, w, env).ending.Completed?
    requires var all := Run(cfg, w, env).ending.result.allEntries; |all| == 1 && all[0].name == name
    requires cfg.hasDb && env.fault.NoFault? && env.at == now
    ensures CleanupCount(Run(cfg, w, env).world.db, name, now, days) == CleanupCount(w.db, name, now, days) + 1
  {
    RunCounts(cfg, w, env, name, now, days);
    AddsOne(Run(cfg, w, env).ending.result, name, now, days);
  }

  lemma AddsOne(r: Result, name: string, now: int, days: nat)
    requires |r.allEntries| == 1 && r.allEntries[0].name == name
    ensures Adds(r, now, name, now, days) == 1
  {
    SumOnes(r.allEntries, NamedEntry(name));
  }

  lemma DryRunCompletes(cfg: Config, w: World, env: Env, path: Path, name: string)
    requires cfg.dryRun && cfg.hasDocker && Fits(cfg, w, env) && env.paths == Some([path]) && Calm(env)
    requires |Scanned(cfg, w, env).errors| == 0
    requires forall i :: 0 <= i < |env.probes| ==> env.probes[i].inspect.Found? && TrimSlash(env.probes[i].inspect.name) == name
    requires forall i :: 0 <= i < |env.inspects| ==> env.inspects[i].Found? && TrimSlash(env.inspects[i].name) == name
    ensures ShowsOneSpared(cfg, w, env, name)
  {
    var s := StartSweep(cfg, Scanned(cfg, w, env), env.order);
    var k := OnlyEntry(cfg, w, env, path, p => name);
    RunPanicsExactly(cfg, w, env);
    SweepStartsFresh(cfg, w, env);
    SweepFlags(cfg, env.acts, s);
    assert SameButFlag(Swept(cfg, w, env).all[0], s.all[0]);
    QuietFiles(cfg, w, env);
    RunReports(cfg, w, env);
  }

  lemma QuietFiles(cfg: Config, w: World, env: Env)
    requires cfg.dryRun && Fits(cfg, w, env) && env.paths.Some? && Calm(env)
    ensures Run(cfg, w, env).world.files == w.files
  {
    SweepStartsFresh(cfg, w, env);
    CalmScan(cfg, env.paths.value, env.probes, StartScan(w));
    SweepHandsOff(cfg, env.acts, StartSweep(cfg, Scanned(cfg, w, env), env.order));
    CalmActsWrites(env.acts);
  }

  /** The truncated entries of this name. */
  function TruncatedEntry(name: string): ContainerLogEntry -> int {
    (e: ContainerLogEntry) => if e.name == name && e.wasTruncated then 1 else 0
  }

  /** A run adds its truncated entries of the name, if it was committed in the window. */
  lemma TruncatedRowsCount(cfg: Config, w: World, env: Env, name: string, now: int, days: int)
    requires Fits(cfg, w, env) && Run(cfg, w, env).ending.Completed?
    ensures var out := Run(cfg, w, env);
      TruncatedCount(out.world.db, name, now, days) == TruncatedCount(w.db, name, now, days) +
        (if cfg.hasDb && Commits(env.fault, |out.ending.result.allEntries|) && Recent(env.at, now, days)
         then Sum(out.ending.result.allEntries, TruncatedEntry(name)) else 0)
  {
    var out := Run(cfg, w, env);
    var r := out.ending.result;
    RunIsRecorded(cfg, w, env);
    if cfg.hasDb && Commits(env.fault, |r.allEntries|) {
      GainedTruncations(cfg, w.db, out.world.db, r, env.at, name, now, days);
    }
  }

  lemma GainedTruncations(cfg: Config, before: Db, after: Db, r: Result, at: int, name: string, now: int, days: int)
    requires Gained(cfg, before, after, r, at)
    ensures TruncatedCount(after, name, now, days) == TruncatedCount(before, name, now, days)
      + (if Recent(at, now, days) then Sum(r.allEntries, TruncatedEntry(name)) else 0)
  {
    var f := Recommendation.TruncatedHit(name, now, days);
    var rows := after.cleans[|before.cleans|..];
    assert after.cleans == before.cleans + rows;
    SumConcat(before.cleans, rows, f);
    forall i | 0 <= i < |rows|
      ensures f(rows[i]) == if Recent(at, now, days) then TruncatedEntry(name)(r.allEntries[i]) else 0
    {
      assert rows[i] == after.cleans[|before.cleans| + i];
      assert ChildTells(after.cleans[|before.cleans| + i], after.runs[|before.runs|], r.allEntries[i]);
    }
    if Recent(at, now, days) { SumEq(rows, r.allEntries, f, TruncatedEntry(name)); } else { SumZero(rows, f); }
  }

  /** A recorded run whose entries were all spared adds nothing to the truncations. */
  lemma SparedRowsCount(cfg: Config, w: World, env: Env, name: string, now: int, days: int)
    requires Fits(cfg, w, env) && Run(cfg, w, env).ending.Completed?
    requires var all := Run(cfg, w, env).ending.result.allEntries; forall i :: 0 <= i < |all| ==> !all[i].wasTruncated
    ensures TruncatedCount(Run(cfg, w, env).world.db, name, now, days) == TruncatedCount(w.db, name, now, days)
  {
    TruncatedRowsCount(cfg, w, env, name, now, days);
    SumZero(Run(cfg, w, env).ending.result.allEntries, TruncatedEntry(name));
  }

  /** As many dry runs as one likes. */
  lemma {:induction false} DryRuns(cfg: Config, w: World, path: Path, name: string, now: int, days: nat, k: nat)
    returns (h: seq<Event>)
    requires cfg.dryRun && cfg.hasDocker && cfg.hasDb && path in w.files
    ensures Legal(cfg, w, h) && |h| == k && Replay(cfg, w, h).files == w.files
    ensures CleanupCount(Replay(cfg, w, h).db, name, now, days) == CleanupCount(w.db, name, now, days) + k
    ensures TruncatedCount(Replay(cfg, w, h).db, name, now, days) == TruncatedCount(w.db, name, now, days)
  {
    h := [];
    if k > 0 {
      var rest := DryRuns(cfg, w, path, name, now, days, k - 1);
      var env := DryRunListsOnce(cfg, Replay(cfg, w, rest), path, name, now, days);
      ReplaySnoc(cfg, w, rest, Ran(env));
      h := rest + [Ran(env)];
    }
  }

  /**
   The documentation fails for every trigger: after that many dry runs, from any tables, the
   container that the last of them lists is recommended, and not one truncation was added.
   */
  lemma NeverTruncatedIsRecommended(cfg: Config, w: World, path: Path, name: string, now: int, days: nat, trigger: nat)
    returns (h: seq<Event>, env: Env, answers: seq<Option<int>>)
    requires cfg.dryRun && cfg.hasDocker && cfg.hasDb && path in w.files && name != "" && 0 < trigger
    ensures Legal(cfg, w, h) && |h| == trigger - 1 && Fits(cfg, Replay(cfg, w, h), env)
    ensures var out := Run(cfg, Replay(cfg, w, h), env);
      && out.ending.Completed?
      && TruncatedCount(out.world.db, name, now, days) == TruncatedCount(w.db, name, now, days)
      && Recommendation.AnsweredFrom(out.world.db, now, days, out.ending.result.insights, answers)
      && Recommendation.Recommended(
           Recommendation.Expected(out.ending.result.insights, answers, days, trigger, |out.ending.result.insights|), name)
  {
    h := DryRuns(cfg, w, path, name, now, days, trigger - 1);
    env := DryRunListsOnce(cfg, Replay(cfg, w, h), path, name, now, days);
    var out := Run(cfg, Replay(cfg, w, h), env);
    var insights := out.ending.result.insights;
    answers := [Some(CleanupCount(out.world.db, name, now, days))];
    CountMeansTruncated(w.db, name, now, days);
    SumNonNegative(w.db.cleans, Hit(name, now, days));
    Recommendation.ListedIsAsked(out.world.db, now, days, insights, answers, name);
    Recommendation.RecommendedExactly(out.world.db, now, days, trigger, insights, answers, name);
  }

  // ---- truncated that often, and not recommended ----

  /** A real run truncates the log; its row bears the container's name, its insight the first twelve characters of the id. */
  ghost predicate TruncatesUnlisted(cfg: Config, w: World, env: Env, path: Path, name: string)
    requires Fits(cfg, w, env)
  {
    var out := Run(cfg, w, env);
    && out.ending.Completed? && |out.ending.result.allEntries| == 1
    && out.ending.result.allEntries[0].name == name && out.ending.result.allEntries[0].wasTruncated
    && |out.ending.result.insights| == 1 && |ContainerId(path)| >= 12
    && out.ending.result.insights[0].name == ContainerId(path)[..12]
  }

  lemma SecondInspectFails(cfg: Config, w: World, path: Path, name: string, now: int) returns (env: Env)
    requires !HandsOff(cfg) && cfg.hasDocker && name !in cfg.excluded && 12 <= |ContainerId(path)|
    requires path in w.files && Threshold(cfg) <= w.files[path]
    ensures Fits(cfg, w, env) && env.at == now && env.fault.NoFault? && TruncatesUnlisted(cfg, w, env, path, name)
  {
    var answer := AnswerWith(name);
    env := QuietRunExists(cfg, w, [path], answer, Inspect.Failed, now);
    UnlistedRun(cfg, w, env, path, name);
  }

  lemma UnlistedRun(cfg: Config, w: World, env: Env, path: Path, name: string)
    requires !HandsOff(cfg) && cfg.hasDocker && name !in cfg.excluded && 12 <= |ContainerId(path)|
    requires Fits(cfg, w, env) && env.paths == Some([path]) && Calm(env) && Cooperates(env.acts)
    requires |Scanned(cfg, w, env).errors| == 0 && path in w.files && Threshold(cfg) <= w.files[path]
    requires forall i :: 0 <= i < |env.probes| ==> env.probes[i].inspect.Found? && TrimSlash(env.probes[i].inspect.name) == name
    requires forall i :: 0 <= i < |env.inspects| ==> env.inspects[i].Failed?
    ensures TruncatesUnlisted(cfg, w, env, path, name)
  {
    var s := StartSweep(cfg, Scanned(cfg, w, env), env.order);
    var k := OnlyEntry(cfg, w, env, path, p => name);
    RunPanicsExactly(cfg, w, env);
    SweepStartsFresh(cfg, w, env);
    LogsStillThere(cfg, w, env);
    SweepTruncatesEligible(cfg, env.acts, s);
    SweepFlags(cfg, env.acts, s);
    assert SameButFlag(Swept(cfg, w, env).all[0], s.all[0]);
    RunReports(cfg, w, env);
    RunInsightNames(cfg, w, env, 0);
  }

  lemma OneTruncationMore(cfg: Config, w: World, env: Env, path: Path, name: string, now: int, days: nat)
    requires Fits(cfg, w, env) && TruncatesUnlisted(cfg, w, env, path, name)
    requires cfg.hasDb && env.fault.NoFault? && env.at == now
    ensures var after := Run(cfg, w, env).world.db;
      && CleanupCount(after, name, now, days) == CleanupCount(w.db, name, now, days) + 1
      && TruncatedCount(after, name, now, days) == TruncatedCount(w.db, name, now, days) + 1
  {
    OneRowMore(cfg, w, env, name, now, days);
    TruncatedRowsCount(cfg, w, env, name, now, days);
    SumOnes(Run(cfg, w, env).ending.result.allEntries, TruncatedEntry(name));
  }

  /** The log grows to the threshold, and a run of this kind follows; as often as one likes. */
  lemma {:induction false} UnlistedRuns(cfg: Config, w: World, path: Path, name: string, now: int, days: nat, k: nat)
    returns (h: seq<Event>)
    requires !HandsOff(cfg) && cfg.hasDocker && cfg.hasDb && name !in cfg.excluded && 12 <= |ContainerId(path)|
    ensures Legal(cfg, w, h) && path in Replay(cfg, w, h).files && Threshold(cfg) <= Replay(cfg, w, h).files[path]
    ensures CleanupCount(Replay(cfg, w, h).db, name, now, days) == CleanupCount(w.db, name, now, days) + k
    ensures TruncatedCount(Replay(cfg, w, h).db, name, now, days) == TruncatedCount(w.db, name, now, days) + k
  {
    var grow := Wrote(Append(path, if 0 <= Threshold(cfg) then Threshold(cfg) else 0));
    if k == 0 {
      ReplaySnoc(cfg, w, [], grow);
      h := [] + [grow];
    } else {
      var rest := UnlistedRuns(cfg, w, path, name, now, days, k - 1);
      var env := SecondInspectFails(cfg, Replay(cfg, w, rest), path, name, now);
      OneTruncationMore(cfg, Replay(cfg, w, rest), env, path, name, now, days);
      ReplaySnoc(cfg, w, rest, Ran(env));
      ReplaySnoc(cfg, w, rest + [Ran(env)], grow);
      h := rest + [Ran(env)] + [grow];
    }
  }

  /**
   The documentation fails the other way too, for every trigger: that many runs truncate the
   log of a container under its name, no row of the name was spared, every query is answered,
   and yet no trigger whatsoever makes the last run recommend the name, because its second
   inspect failed.
   */
  lemma TruncatedButNotRecommended(cfg: Config, w: World, path: Path, name: string, now: int, days: nat, trigger: nat)
    returns (h: seq<Event>, env: Env, answers: seq<Option<int>>)
    requires !HandsOff(cfg) && cfg.hasDocker && cfg.hasDb && name !in cfg.excluded && 0 < trigger
    requires 12 <= |ContainerId(path)| && ContainerId(path)[..12] != name
    requires !SparedRecently(w.db, name, now, days)
    ensures Legal(cfg, w, h) && Fits(cfg, Replay(cfg, w, h), env)
    ensures var out := Run(cfg, Replay(cfg, w, h), env);
      && out.ending.Completed?
      && trigger <= TruncatedCount(out.world.db, name, now, days) && !SparedRecently(out.world.db, name, now, days)
      && Recommendation.AnsweredFrom(out.world.db, now, days, out.ending.result.insights, answers)
      && NeverAdvised(days, out.ending.result.insights, answers, name)
  {
    h := UnlistedRuns(cfg, w, path, name, now, days, trigger - 1);
    env := SecondInspectFails(cfg, Replay(cfg, w, h), path, name, now);
    OneTruncationMore(cfg, Replay(cfg, w, h), env, path, name, now, days);
    var out := Run(cfg, Replay(cfg, w, h), env);
    var insights := out.ending.result.insights;
    answers := [Some(CleanupCount(out.world.db, insights[0].name, now, days))];
    CountMeansTruncated(w.db, name, now, days);
    CountMeansTruncated(out.world.db, name, now, days);
    TruncatedNotNegative(w.db, name, now, days);
    UnlistedIsNeverAdvised(out.world.db, now, days, insights, answers, name);
  }

  lemma UnlistedIsNeverAdvised(db: Db, now: int, days: int, insights: seq<Insight>, answers: seq<Option<int>>, name: string)
    requires Recommendation.AnsweredFrom(db, now, days, insights, answers) && !Recommendation.Listed(insights, name)
    ensures NeverAdvised(days, insights, answers, name)
  {
    Recommendation.ListedIsAsked(db, now, days, insights, answers, name);
    forall t: int
      ensures !Recommendation.Recommended(Recommendation.Expected(insights, answers, days, t, |insights|), name)
    {
      Recommendation.RecommendedExactly(db, now, days, t, insights, answers, name);
    }
  }

  /** No trigger leads to a recommendation of the name. */
  ghost predicate NeverAdvised(days: int, insights: seq<Insight>, answers: seq<Option<int>>, name: string)
    requires |answers| == |insights|
  {
    forall t: int ::
      !Recommendation.Recommended(Recommendation.Expected(insights, answers, days, t, |insights|), name)
  }

  lemma TruncatedNotNegative(db: Db, name: string, now: int, days: int)
    ensures 0 <= TruncatedCount(db, name, now, days)
  {
    SumNonNegative(db.cleans, Recommendation.TruncatedHit(name, now, days));
  }
}
