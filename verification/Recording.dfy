/** What a run leaves in the tables, and how the queries see it. */
module Recording {
  import opened Sums
  import opened Tables
  import opened Cleanup
  import opened RunLaws
  import opened History
  import Storage

  function NamedEntry(name: string): ContainerLogEntry -> int {
    (e: ContainerLogEntry) => if e.name == name then 1 else 0
  }

  /** The run row that was added says about the run what its result says. */
  ghost predicate RowTells(cfg: Config, row: RunRow, r: Result, at: int) {
    && row.serverId == cfg.serverId && row.dryRun == r.dryRun
    && row.logsCleaned == r.logsCleaned && row.reclaimed == r.reclaimed && row.durationMs == r.durationMs
    && row.at == at && TextsTell(row.errors, r.errors)
  }

  /** One text per error, with its phase and path. */
  ghost predicate TextsTell(texts: seq<string>, errors: seq<CleanupError>) {
    |texts| == |errors| && forall i :: 0 <= i < |texts| ==> texts[i] == "[" + errors[i].phase + "] " + errors[i].path
  }

  lemma ErrorTextsTell(errors: seq<CleanupError>)
    ensures TextsTell(ErrorTexts(errors), errors)
  {
  }

  /** The child row says about the entry what the result says. */
  ghost predicate ChildTells(child: CleanRow, row: RunRow, e: ContainerLogEntry) {
    && child.runId == row.id && child.at == row.at
    && child.name == e.name && child.image == e.image && child.size == e.size && child.wasTruncated == e.wasTruncated
  }

  /** The tables gained one run row and one child row per entry, and nothing else changed in them. */
  ghost predicate Gained(cfg: Config, before: Db, after: Db, r: Result, at: int) {
    && |after.runs| == |before.runs| + 1 && before.runs <= after.runs
    && |after.cleans| == |before.cleans| + |r.allEntries| && before.cleans <= after.cleans
    && RowTells(cfg, after.runs[|before.runs|], r, at)
    && forall i :: 0 <= i < |r.allEntries| ==>
         ChildTells(after.cleans[|before.cleans| + i], after.runs[|before.runs|], r.allEntries[i])
  }

  /**
   A completed run is in the tables as a whole or not at all: entries below the threshold,
   excluded ones and those of a dry run included.
   */
  lemma RunIsRecorded(cfg: Config, w: World, env: Env)
    requires Fits(cfg, w, env) && Run(cfg, w, env).ending.Completed?
    ensures var out := Run(cfg, w, env);
      var r := out.ending.result;
      if cfg.hasDb && Commits(env.fault, |r.allEntries|) then Gained(cfg, w.db, out.world.db, r, env.at)
      else out.world.db.runs == w.db.runs && out.world.db.cleans == w.db.cleans
  {
    RunPersists(cfg, w, env);
    var r := Run(cfg, w, env).ending.result;
    PersistedGains(cfg, w.db, w.db.(snapshots := Scanned(cfg, w, env).snapshots), r, env.at, env.fault);
  }

  lemma RunPersists(cfg: Config, w: World, env: Env)
    requires Fits(cfg, w, env) && Run(cfg, w, env).ending.Completed?
    ensures env.paths.Some?
    ensures var out := Run(cfg, w, env);
      out.world.db == Persist(cfg, w.db.(snapshots := Scanned(cfg, w, env).snapshots), out.ending.result, env.at, env.fault)
  {
  }

  lemma PersistedGains(cfg: Config, before: Db, snapped: Db, r: Result, at: int, fault: Fault)
    requires snapped.runs == before.runs && snapped.cleans == before.cleans
    ensures var after := Persist(cfg, snapped, r, at, fault);
      if cfg.hasDb && Commits(fault, |r.allEntries|) then Gained(cfg, before, after, r, at)
      else after.runs == before.runs && after.cleans == before.cleans
  {
    if cfg.hasDb && Commits(fault, |r.allEntries|) { RecordedGains(cfg, before, snapped, r, at); }
  }

  lemma RecordedGains(cfg: Config, before: Db, db: Db, r: Result, at: int)
    requires db.runs == before.runs && db.cleans == before.cleans
    ensures Gained(cfg, before, Recorded(db, ToRunInput(cfg, r), at), r, at)
  {
    ErrorTextsTell(r.errors);
  }

  // ---- what the cleanup counts see ----

  /** The entries of this name that the committed run adds to a count. */
  function Adds(r: Result, at: int, name: string, now: int, days: int): int {
    if Storage.Recent(at, now, days) then Sum(r.allEntries, NamedEntry(name)) else 0
  }

  lemma RecordedCounts(cfg: Config, db: Db, r: Result, at: int, name: string, now: int, days: int)
    ensures Storage.CleanupCount(Recorded(db, ToRunInput(cfg, r), at), name, now, days)
      == Storage.CleanupCount(db, name, now, days) + Adds(r, at, name, now, days)
  {
    var children := ChildRows(ToCleanInputs(r.allEntries), db.lastCleanId, db.lastRunId + 1, at);
    SumConcat(db.cleans, children, Storage.Hit(name, now, days));
    ChildrenCount(r.allEntries, db.lastCleanId, db.lastRunId + 1, at, name, now, days);
  }

  lemma ChildrenCount(all: seq<ContainerLogEntry>, last: nat, id: nat, at: int, name: string, now: int, days: int)
    ensures Sum(ChildRows(ToCleanInputs(all), last, id, at), Storage.Hit(name, now, days))
      == if Storage.Recent(at, now, days) then Sum(all, NamedEntry(name)) else 0
  {
    var children := ChildRows(ToCleanInputs(all), last, id, at);
    if Storage.Recent(at, now, days) {
      SumEq(children, all, Storage.Hit(name, now, days), NamedEntry(name));
    } else {
      SumZero(children, Storage.Hit(name, now, days));
    }
  }

  /** What one event adds: the entries of that name in a run that completed and was committed in the window. */
  ghost function EventAdds(cfg: Config, w: World, e: Event, name: string, now: int, days: int): int
    requires EventFits(cfg, w, e)
  {
    if e.Ran? && Run(cfg, w, e.env).ending.Completed? && cfg.hasDb
      && Commits(e.env.fault, |Run(cfg, w, e.env).ending.result.allEntries|)
    then Adds(Run(cfg, w, e.env).ending.result, e.env.at, name, now, days) else 0
  }

  ghost function HistoryAdds(cfg: Config, w: World, h: seq<Event>, name: string, now: int, days: int): int
    requires Legal(cfg, w, h)
    decreases |h|
  {
    if |h| == 0 then 0
    else
      var n := |h| - 1;
      HistoryAdds(cfg, w, h[..n], name, now, days) + EventAdds(cfg, Replay(cfg, w, h[..n]), h[n], name, now, days)
  }

  lemma EventCounts(cfg: Config, w: World, e: Event, name: string, now: int, days: int)
    requires EventFits(cfg, w, e)
    ensures Storage.CleanupCount(After(cfg, w, e).db, name, now, days)
      == Storage.CleanupCount(w.db, name, now, days) + EventAdds(cfg, w, e, name, now, days)
  {
    if e.Ran? && Run(cfg, w, e.env).ending.Completed? { RunCounts(cfg, w, e.env, name, now, days); }
  }

  lemma RunCounts(cfg: Config, w: World, env: Env, name: string, now: int, days: int)
    requires Fits(cfg, w, env) && Run(cfg, w, env).ending.Completed?
    ensures var out := Run(cfg, w, env);
      Storage.CleanupCount(out.world.db, name, now, days) == Storage.CleanupCount(w.db, name, now, days) +
        (if cfg.hasDb && Commits(env.fault, |out.ending.result.allEntries|)
         then Adds(out.ending.result, env.at, name, now, days) else 0)
  {
    if cfg.hasDb {
      var r := Run(cfg, w, env).ending.result;
      var snapped := w.db.(snapshots := Scanned(cfg, w, env).snapshots);
      assert Run(cfg, w, env).world.db == Record(snapped, ToRunInput(cfg, r), env.at, env.fault);
      RecordedCounts(cfg, snapped, r, env.at, name, now, days);
    }
  }

  /**
   Over every history, what GetContainerCleanupCount gains for a name is exactly the number of
   entries of that name in the runs committed in the window: truncated, spared, excluded and
   dry-run entries alike.
   */
  lemma {:induction false} HistoryCounts(cfg: Config, w: World, h: seq<Event>, name: string, now: int, days: int)
    requires Legal(cfg, w, h)
    ensures Storage.CleanupCount(Replay(cfg, w, h).db, name, now, days)
      == Storage.CleanupCount(w.db, name, now, days) + HistoryAdds(cfg, w, h, name, now, days)
    decreases |h|
  {
    if |h| > 0 {
      var n := |h| - 1;
      HistoryCounts(cfg, w, h[..n], name, now, days);
      EventCounts(cfg, Replay(cfg, w, h[..n]), h[n], name, now, days);
    }
  }
}
