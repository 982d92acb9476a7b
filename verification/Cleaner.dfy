/** internal/cleanup/cleaner.go in its own form: the cleaner object and its mutating Run. */
module Cleaner {
  import opened Sums
  import opened LogFiles
  import opened Policies
  import opened Docker
  import opened Tables
  import opened Ranking
  import Storage
  import opened Cleanup
  import opened ScanLaws

  datatype Returned = Busy | Ended(ending: Ending)

  class LogCleaner {
    const cfg: Config
    const fs: FileSystem
    const store: Storage.Store
    var locked: bool
    var lastResult: Result
    var log: seq<LogLine>

    constructor (cfg: Config, fs: FileSystem, store: Storage.Store)
      ensures this.cfg == cfg && this.fs == fs && this.store == store
      ensures !locked && lastResult == NoResult && log == []
    {
      this.cfg, this.fs, this.store := cfg, fs, store;
      locked, lastResult, log := false, NoResult, [];
    }

    function Shared(): World
      reads this, fs, store
    {
      World(fs.files, store.db, lastResult)
    }

    /** LastResult, once the mutex is free. */
    method LastResult() returns (r: Result)
      requires !locked
      ensures r == lastResult
    {
      r := lastResult;
    }

    /** The stat loop. */
    method ScanLoop(paths: seq<Path>, probes: seq<Probe>)
      returns (entries: seq<LogEntry>, errors: seq<CleanupError>)
      requires |probes| == |paths|
      modifies fs, store
      ensures Scan(fs.files, store.db.snapshots, entries, errors)
        == ScanAll(cfg, paths, probes, Scan(old(fs.files), old(store.db.snapshots), [], []))
      ensures store.db == old(store.db).(snapshots := store.db.snapshots)
    {
      ghost var start := Scan(fs.files, store.db.snapshots, [], []);
      entries, errors := [], [];
      for i := 0 to |paths|
        invariant Scan(fs.files, store.db.snapshots, entries, errors) == ScanAll(cfg, paths, probes[..i], start)
        invariant store.db == old(store.db).(snapshots := store.db.snapshots)
      {
        assert probes[..i + 1][..i] == probes[..i];
        ghost var before := Scan(fs.files, store.db.snapshots, entries, errors);
        var path, probe := paths[i], probes[i];
        var size := fs.Stat(path, probe.tick);
        if size.None? {
          errors := errors + [CleanupError(STAT, path)];
        } else {
          var cid := ContainerId(path);
          var name, image := cid, "";
          if cfg.hasDocker && probe.inspect.Found? {
            name, image := TrimSlash(probe.inspect.name), probe.inspect.image;
          }
          if cfg.hasDb {
            store.RecordSnapshot(SnapshotRow(cid, name, size.value), probe.snapshotOk);
          }
          entries := entries + [LogEntry(path, size.value, cid, name, image)];
        }
        assert Scan(fs.files, store.db.snapshots, entries, errors) == ScanStep(cfg, path, probe, before);
      }
      assert probes[..|paths|] == probes;
    }

    /** sort.Slice by size, largest first. */
    method SortEntries(entries: seq<LogEntry>) returns (order: seq<LogEntry>)
      ensures Ranks(order, entries, EntrySize)
    {
      var a := new LogEntry[|entries|](i requires 0 <= i < |entries| => entries[i]);
      assert a[..] == entries;
      SortDescending(a, EntrySize);
      order := a[..];
    }

    /** The loop that fills `all` and copies the first topN entries to TopConsumers. */
    method BuildLists(order: seq<LogEntry>) returns (all: array<ContainerLogEntry>, top: seq<ContainerLogEntry>)
      ensures fresh(all) && all[..] == Listed(cfg, order)
      ensures top == TopOf(cfg, Listed(cfg, order))
    {
      var excluded := ExcludedMap(cfg.excluded);
      var topN := cfg.topConsumers;
      if topN <= 0 { topN := 5; }
      ghost var listed := Listed(cfg, order);
      var blank := ContainerLogEntry("", "", "", "", 0, false, false);
      all := new ContainerLogEntry[|order|](_ => blank);
      top := [];
      for i := 0 to |order|
        invariant all.Length == |order|
        invariant forall k :: 0 <= k < i ==> all[k] == listed[k]
        invariant top == listed[..if i < topN then i else topN]
      {
        var e := order[i];
        var isExcluded := e.name in excluded && excluded[e.name];
        var cle := ContainerLogEntry(e.cid, e.name, e.image, e.path, e.size, false, isExcluded);
        assert cle == listed[i];
        if i < topN { top := top + [cle]; }
        all[i] := cle;
      }
      assert all[..] == listed;
    }

    /** One iteration of the truncation loop, writing through &all[i]; `s` is the state before it. */
    method SweepOne(all: array<ContainerLogEntry>, i: nat, act: Act, errors: seq<CleanupError>, cleaned: nat,
                    reclaimed: nat, ghost s: Sweep)
      returns (errors': seq<CleanupError>, cleaned': nat, reclaimed': nat)
      requires i < all.Length
      requires s.files == fs.files && s.all == all[..]
      requires s.errors == errors && s.cleaned == cleaned && s.reclaimed == reclaimed
      modifies fs, all, this`log
      ensures var r := SweepStep(cfg, act, i, s);
        && fs.files == r.files && all[..] == r.all
        && r.errors == errors' && r.cleaned == cleaned' && r.reclaimed == reclaimed'
        && s.log <= r.log && log == old(log) + r.log[|s.log|..]
    {
      var e := all[i];
      errors', cleaned', reclaimed' := errors, cleaned, reclaimed;
      if e.size < Threshold(cfg) {
        fs.ElapseTwice(act.stat.writes, act.change.writes);
      } else if e.isExcluded {
        fs.ElapseTwice(act.stat.writes, act.change.writes);
        log := log + [SkippingExcluded(e.path)];
      } else if cfg.dryRun {
        fs.ElapseTwice(act.stat.writes, act.change.writes);
        log := log + [WouldTruncate(e.path)];
        all[i] := e.(wasTruncated := false);
      } else {
        var freed := ApplyPolicy(cfg.mode, fs, e.path, act);
        if freed.None? {
          log := log + [TruncateFailed(e.path)];
          errors' := errors + [CleanupError(TRUNCATE, e.path)];
        } else {
          all[i] := e.(wasTruncated := true);
          cleaned' := cleaned + 1;
          reclaimed' := reclaimed + freed.value;
          log := log + [Truncated(e.path)];
        }
      }
    }

    /** The truncation loop, in place. */
    method SweepLoop(all: array<ContainerLogEntry>, acts: seq<Act>, scanErrors: seq<CleanupError>)
      returns (errors: seq<CleanupError>, cleaned: nat, reclaimed: nat)
      requires |acts| == all.Length
      modifies fs, all, this`log
      ensures var r := SweepAll(cfg, acts, Sweep(old(fs.files), old(all[..]), scanErrors, 0, 0, []));
        && fs.files == r.files && all[..] == r.all
        && errors == r.errors && cleaned == r.cleaned && reclaimed == r.reclaimed
        && log == old(log) + r.log
    {
      ghost var start := Sweep(fs.files, all[..], scanErrors, 0, 0, []);
      errors, cleaned, reclaimed := scanErrors, 0, 0;
      ghost var s := start;
      for i := 0 to all.Length
        invariant s == SweepAll(cfg, acts[..i], start)
        invariant fs.files == s.files && all[..] == s.all
        invariant errors == s.errors && cleaned == s.cleaned && reclaimed == s.reclaimed
        invariant log == old(log) + s.log
      {
        assert acts[..i + 1][..i] == acts[..i];
        errors, cleaned, reclaimed := SweepOne(all, i, acts[i], errors, cleaned, reclaimed, s);
        s := SweepStep(cfg, acts[i], i, s);
      }
      assert acts[..all.Length] == acts;
    }

    /** The nested join: each insight takes the size of the first entry with its id. */
    method JoinSizes(insights: seq<Insight>, order: seq<LogEntry>) returns (joined: seq<Insight>)
      ensures joined == Join(insights, order)
    {
      joined := insights;
      for i := 0 to |insights|
        invariant |joined| == |insights|
        invariant forall k :: 0 <= k < i ==> joined[k] == JoinOne(insights[k], order)
        invariant forall k :: i <= k < |insights| ==> joined[k] == insights[k]
      {
        var j := 0;
        while j < |order|
          invariant 0 <= j <= |order|
          invariant FirstSize(order, insights[i].id) == FirstSize(order[j..], insights[i].id)
        {
          if order[j].cid == joined[i].id {
            break;
          }
          assert order[j..][1..] == order[j + 1..];
          j := j + 1;
        }
        if j < |order| {
          assert order[j..][0] == order[j];
          joined := joined[i := joined[i].(logSize := order[j].size)];
        }
      }
    }

    /**
     CollectInsights on the paths of the entries, and the join, when there is a Docker client;
     None when a slice panics.
     */
    method Enrich(order: seq<LogEntry>, inspects: seq<Inspect>) returns (insights: Option<seq<Insight>>)
      requires |inspects| == |order| && IdsFromPaths(order)
      ensures insights == RunInsights(cfg, order, inspects)
    {
      if !cfg.hasDocker { return Some([]); }
      var logPaths := seq(|order|, i requires 0 <= i < |order| => order[i].path);
      insights := CollectInsights(logPaths, inspects, cfg.excluded);
      assert ContainerIds(logPaths) == EntryIds(order);
      if insights.Some? {
        var joined := JoinSizes(insights.value, order);
        insights := Some(joined);
      }
    }

    /** RecordRun, when there is a database; a failure is logged and otherwise ignored. */
    method SaveRun(r: Result, at: int, fault: Fault)
      modifies store
      ensures store.db == Persist(cfg, old(store.db), r, at, fault)
    {
      if cfg.hasDb {
        var id := store.RecordRun(ToRunInput(cfg, r), at, fault);
      }
    }

    /** From the end of the truncation loop to the return: insights, persisting, last result. */
    method Conclude(order: seq<LogEntry>, inspects: seq<Inspect>, all: array<ContainerLogEntry>,
                    top: seq<ContainerLogEntry>, ghost sweep: Sweep, errors: seq<CleanupError>,
                    cleaned: nat, reclaimed: nat, startedAt: int, finishedAt: int, at: int, fault: Fault)
      returns (ending: Ending)
      requires |inspects| == |order| && IdsFromPaths(order) && top == TopOf(cfg, Listed(cfg, order))
      requires sweep.all == all[..] && sweep.errors == errors
      requires sweep.cleaned == cleaned && sweep.reclaimed == reclaimed
      modifies this`lastResult, store
      ensures match RunInsights(cfg, order, inspects)
        case None => ending == Panicked && store.db == old(store.db) && lastResult == old(lastResult)
        case Some(insights) =>
          var r := ToResult(cfg, order, sweep, insights, startedAt, finishedAt);
          ending == Completed(r) && lastResult == r && store.db == Persist(cfg, old(store.db), r, at, fault)
    {
      var insights := Enrich(order, inspects);
      if insights.None? {
        return Panicked;
      }
      var r := Result(startedAt, finishedAt, finishedAt - startedAt, cleaned, reclaimed, errors, top, cfg.dryRun,
        insights.value, all[..]);
      SaveRun(r, at, fault);
      lastResult := r;
      return Completed(r);
    }

    /** The body of Run under the lock, once discovery has succeeded. */
    method Clean(paths: seq<Path>, probes: seq<Probe>, acts: seq<Act>, inspects: seq<Inspect>,
                 startedAt: int, finishedAt: int, at: int, fault: Fault)
      returns (ending: Ending, ghost env: Env)
      requires |probes| == |acts| == |inspects| == |paths|
      modifies this`lastResult, this`log, fs, store
      ensures old(log) <= log && Fits(cfg, old(Shared()), env)
      ensures Outcome(Shared(), ending, log[|old(log)|..]) == Cleanup.Run(cfg, old(Shared()), env)
      ensures exists order :: env == Env(Some(paths), probes, order, env.acts, env.inspects, startedAt, finishedAt, at, fault)
      ensures env.acts <= acts && env.inspects <= inspects
    {
      ghost var before := old(Shared());
      var entries, scanErrors := ScanLoop(paths, probes);
      ScanCounts(cfg, paths, probes, StartScan(before));
      var order := SortEntries(entries);
      SumBag(order, entries, EntrySize);
      OrderHasPathIds(cfg, paths, probes, StartScan(before), order);
      env := Env(Some(paths), probes, order, acts[..|order|], inspects[..|order|], startedAt, finishedAt, at, fault);
      var all, top := BuildLists(order);
      var errors, cleaned, reclaimed := SweepLoop(all, acts[..|order|], scanErrors);
      ghost var sweep := Swept(cfg, before, env);
      ending := Conclude(order, inspects[..|order|], all, top, sweep, errors, cleaned, reclaimed,
        startedAt, finishedAt, at, fault);
      assert log[|old(log)|..] == sweep.log;
    }

    /**
     Run: one call, in the environment given by the arguments. A call that finds the mutex
     taken changes nothing; any other does to files, tables and last result exactly what
     Cleanup.Run says, and leaves the mutex free on every way out, the panic included.
     */
    method Run(paths: Option<seq<Path>>, probes: seq<Probe>, acts: seq<Act>, inspects: seq<Inspect>,
               startedAt: int, finishedAt: int, at: int, fault: Fault)
      returns (ret: Returned, ghost env: Env)
      requires paths.Some? ==> |probes| == |acts| == |inspects| == |paths.value|
      modifies this, fs, store
      ensures old(locked) ==> ret == Busy && Shared() == old(Shared()) && log == old(log) && locked
      ensures !old(locked) ==> (
        && ret.Ended? && !locked && old(log) <= log
        && Fits(cfg, old(Shared()), env)
        && Outcome(Shared(), ret.ending, log[|old(log)|..]) == Cleanup.Run(cfg, old(Shared()), env)
        && env.paths == paths && env.startedAt == startedAt && env.finishedAt == finishedAt
        && env.at == at && env.fault == fault
        && (paths.Some? ==> env.probes == probes && env.acts <= acts && env.inspects <= inspects))
    {
      env := Env(paths, probes, [], [], [], startedAt, finishedAt, at, fault);
      if locked {
        return Busy, env;
      }
      locked := true;
      var ending := DiscoverFailed;
      if paths.Some? {
        ending, env := Clean(paths.value, probes, acts, inspects, startedAt, finishedAt, at, fault);
      }
      locked := false; // the deferred unlock
      ret := Ended(ending);
    }
  }
}
