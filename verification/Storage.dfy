/** internal/storage/sqlite.go: the transaction that records a run, and the queries over the tables. */
module Storage {
  import opened Sums
  import opened Tables
  import opened Ranking

  const DAY: int := 86400

  /**
   timestamp >= datetime('now', '-N days'): for a negative N the modifier reads "--N days",
   which SQLite rejects, so the comparison is with NULL and no row qualifies.
   */
  predicate Recent(at: int, now: int, days: int) { 0 <= days && now - days * DAY <= at }

  function Hit(name: string, now: int, days: int): CleanRow -> int {
    (c: CleanRow) => if c.name == name && Recent(c.at, now, days) then 1 else 0
  }

  /** The row's run belongs to the server: the join on run_id with the server_id filter. */
  predicate RunBelongs(runs: seq<RunRow>, id: nat, server: string) {
    exists i :: 0 <= i < |runs| && runs[i].id == id && runs[i].serverId == server
  }

  predicate Joins(db: Db, server: string, c: CleanRow, now: int, days: int) {
    Recent(c.at, now, days) && RunBelongs(db.runs, c.runId, server)
  }

  function JoinHit(db: Db, server: string, now: int, days: int): CleanRow -> int {
    (c: CleanRow) => if Joins(db, server, c, now, days) then 1 else 0
  }

  function GroupHit(db: Db, server: string, name: string, now: int, days: int): CleanRow -> int {
    (c: CleanRow) => if c.name == name && Joins(db, server, c, now, days) then 1 else 0
  }

  function GroupSize(db: Db, server: string, name: string, now: int, days: int): CleanRow -> int {
    (c: CleanRow) => if c.name == name && Joins(db, server, c, now, days) then c.size else 0
  }

  /** GetContainerCleanupCount and the COUNT(*) of one group. */
  function CleanupCount(db: Db, name: string, now: int, days: int): int { Sum(db.cleans, Hit(name, now, days)) }

  function GroupCount(db: Db, server: string, name: string, now: int, days: int): int {
    Sum(db.cleans, GroupHit(db, server, name, now, days))
  }

  datatype Frequency = Frequency(name: string, count: int, totalSize: int)

  function CountOf(f: Frequency): int { f.count }

  /** The group of this name, as one result row. */
  function GroupRow(db: Db, server: string, name: string, now: int, days: int): Frequency {
    Frequency(name, GroupCount(db, server, name, now, days), Sum(db.cleans, GroupSize(db, server, name, now, days)))
  }

  datatype Stats = Stats(totalRuns: nat, totalLogsCleaned: int, totalReclaimed: int, avgDurationMs: real, lastRunAt: Option<int>)

  function RunsOf(server: string): RunRow -> int { (r: RunRow) => if r.serverId == server then 1 else 0 }

  function LogsOf(server: string): RunRow -> int { (r: RunRow) => if r.serverId == server then r.logsCleaned else 0 }

  function SpaceOf(server: string): RunRow -> int { (r: RunRow) => if r.serverId == server then r.reclaimed else 0 }

  function DurationOf(server: string): RunRow -> int { (r: RunRow) => if r.serverId == server then r.durationMs else 0 }

  /** MAX(timestamp) over the server's rows. */
  ghost predicate IsLatest(runs: seq<RunRow>, server: string, at: Option<int>) {
    match at
    case None => forall i :: 0 <= i < |runs| ==> runs[i].serverId != server
    case Some(t) =>
      && (exists i :: 0 <= i < |runs| && runs[i].serverId == server && runs[i].at == t)
      && (forall i :: 0 <= i < |runs| && runs[i].serverId == server ==> runs[i].at <= t)
  }

  /** COALESCE(AVG(duration_ms), 0) */
  function Average(total: int, n: nat): (r: real)
    ensures n == 0 ==> r == 0.0
    ensures n > 0 ==> r * (n as real) == total as real
  {
    if n == 0 then 0.0 else total as real / n as real
  }

  /** The four accumulators after these rows. */
  ghost predicate Totals(runs: seq<RunRow>, server: string, n: int, logs: int, space: int, duration: int) {
    && 0 <= n == Sum(runs, RunsOf(server))
    && logs == Sum(runs, LogsOf(server))
    && space == Sum(runs, SpaceOf(server))
    && duration == Sum(runs, DurationOf(server))
    && (n == 0 ==> duration == 0)
  }

  lemma TotalsSnoc(runs: seq<RunRow>, r: RunRow, server: string, n: int, logs: int, space: int, duration: int)
    requires Totals(runs, server, n, logs, space, duration)
    ensures if r.serverId == server
      then Totals(runs + [r], server, n + 1, logs + r.logsCleaned, space + r.reclaimed, duration + r.durationMs)
      else Totals(runs + [r], server, n, logs, space, duration)
  {
    SumSnoc(runs, r, RunsOf(server));
    SumSnoc(runs, r, LogsOf(server));
    SumSnoc(runs, r, SpaceOf(server));
    SumSnoc(runs, r, DurationOf(server));
  }

  function Latest(last: Option<int>, r: RunRow, server: string): Option<int> {
    if r.serverId != server || (last.Some? && last.value >= r.at) then last else Some(r.at)
  }

  function RunAt(r: RunRow): int { r.at }

  function ServerRuns(runs: seq<RunRow>, server: string): seq<RunRow>
    decreases |runs|
  {
    if |runs| == 0 then []
    else
      var rest, last := ServerRuns(runs[..|runs| - 1], server), runs[|runs| - 1];
      if last.serverId == server then rest + [last] else rest
  }

  /** ORDER BY key DESC LIMIT limit: a prefix of a ranking; a negative limit is no limit. */
  ghost predicate TopOf<T(!new)>(result: seq<T>, rows: seq<T>, key: T -> int, limit: int) {
    exists order :: Ranks(order, rows, key) && result == Limited(order, limit)
  }

  function Limited<T>(order: seq<T>, limit: int): seq<T> {
    if 0 <= limit < |order| then order[..limit] else order
  }

  /** The names after one more row: its own, if it joins and is new. */
  function NamesWith(db: Db, server: string, c: CleanRow, now: int, days: int, names: seq<string>): seq<string> {
    if Joins(db, server, c, now, days) && c.name !in names then names + [c.name] else names
  }

  /** The distinct names that have rows in the join, each once. */
  ghost predicate GroupNames(db: Db, server: string, now: int, days: int, cleans: seq<CleanRow>, names: seq<string>) {
    && (forall i, j :: 0 <= i < j < |names| ==> names[i] != names[j])
    && (forall i :: 0 <= i < |cleans| && Joins(db, server, cleans[i], now, days) ==> cleans[i].name in names)
    && (forall n :: n in names ==> exists i :: 0 <= i < |cleans| && cleans[i].name == n && Joins(db, server, cleans[i], now, days))
  }

  /** One row per group. */
  function GroupRows(db: Db, server: string, now: int, days: int, names: seq<string>): (rows: seq<Frequency>)
    ensures |rows| == |names|
    ensures forall i :: 0 <= i < |rows| ==> rows[i] == GroupRow(db, server, names[i], now, days)
  {
    seq(|names|, i requires 0 <= i < |names| => GroupRow(db, server, names[i], now, days))
  }

  /** The groups of the join, largest count first, as many as the limit allows. */
  ghost predicate IsTop(db: Db, server: string, limit: int, now: int, days: int, result: seq<Frequency>) {
    exists names :: GroupNames(db, server, now, days, db.cleans, names)
      && TopOf(result, GroupRows(db, server, now, days, names), CountOf, limit)
  }

  /** One child row per container, in order, under the run, with consecutive ids. */
  ghost predicate RowsTell(rows: seq<CleanRow>, containers: seq<CleanInput>, last: nat, runId: nat, at: int) {
    && |rows| == |containers|
    && forall k :: 0 <= k < |rows| ==>
         rows[k] == CleanRow(last + k + 1, runId, containers[k].name, containers[k].image, containers[k].size,
           containers[k].wasTruncated, at)
  }

  /** The database handle. */
  class Store {
    var db: Db

    constructor (db: Db)
      ensures this.db == db
    {
      this.db := db;
    }

    /** RecordRun: one run row and its child rows, committed together or not at all. */
    method RecordRun(input: RunInput, at: int, fault: Fault) returns (id: Option<nat>)
      modifies this
      ensures db == Record(old(db), input, at, fault)
      ensures id == if Commits(fault, |input.containers|) then Some(old(db).lastRunId + 1) else None
      ensures fault.BeginFails? || fault.InsertRunFails? || fault.LastIdFails? || fault.CommitFails? ==>
        id.None? && db == old(db)
      ensures fault.InsertCleanFails? && fault.nth < |input.containers| ==> id.None? && db == old(db)
      ensures fault.NoFault? || (fault.InsertCleanFails? && |input.containers| <= fault.nth) ==>
        && id.Some? && db.snapshots == old(db).snapshots
        && |db.runs| == |old(db).runs| + 1 && old(db).runs <= db.runs
        && db.runs[|old(db).runs|].id == id.value && db.lastRunId == id.value > old(db).lastRunId
        && |db.cleans| == |old(db).cleans| + |input.containers| && old(db).cleans <= db.cleans
        && db.lastCleanId == old(db).lastCleanId + |input.containers|
        && RowsTell(db.cleans[|old(db).cleans|..], input.containers, old(db).lastCleanId, id.value, at)
    {
      if fault.BeginFails? || fault.InsertRunFails? || fault.LastIdFails? {
        return None;
      }
      var runId := db.lastRunId + 1;
      var cleans, lastCleanId := db.cleans, db.lastCleanId;
      ghost var children := ChildRows(input.containers, db.lastCleanId, runId, at);
      for k := 0 to |input.containers|
        invariant db == old(db)
        invariant lastCleanId == db.lastCleanId + k
        invariant cleans == db.cleans + children[..k]
        invariant fault.InsertCleanFails? ==> k <= fault.nth
      {
        if fault.InsertCleanFails? && fault.nth == k {
          return None; // the deferred rollback
        }
        cleans := cleans + [ToCleanRow(input.containers[k], lastCleanId + 1, runId, at)];
        lastCleanId := lastCleanId + 1;
        assert children[..k + 1] == children[..k] + [children[k]];
      }
      if fault.CommitFails? {
        return None;
      }
      assert children[..|children|] == children;
      db := Db(db.runs + [ToRunRow(input, runId, at)], cleans, db.snapshots, runId, lastCleanId);
      return Some(runId);
    }

    /** RecordLogSizeSnapshot */
    method RecordSnapshot(row: SnapshotRow, ok: bool)
      modifies this
      ensures db == if ok then Snapped(old(db), row) else old(db)
      ensures db.runs == old(db).runs && db.cleans == old(db).cleans
      ensures db.snapshots == if ok then old(db).snapshots + [row] else old(db).snapshots
    {
      if ok { db := Snapped(db, row); }
    }

    /** GetContainerCleanupCount: the number of rows, unless the query fails. */
    method GetContainerCleanupCount(name: string, now: int, days: int, ok: bool) returns (answer: Option<int>)
      ensures answer == if ok then Some(CleanupCount(db, name, now, days)) else None
      ensures ok ==> (answer.value ==
        |set i: nat | i < |db.cleans| && db.cleans[i].name == name && 0 <= days && now - db.cleans[i].at <= days * 24 * 60 * 60|)
    {
      if !ok { return None; }
      var count := 0;
      for k := 0 to |db.cleans|
        invariant count == Sum(db.cleans[..k], Hit(name, now, days))
      {
        assert db.cleans[..k + 1] == db.cleans[..k] + [db.cleans[k]];
        SumSnoc(db.cleans[..k], db.cleans[k], Hit(name, now, days));
        count := count + Hit(name, now, days)(db.cleans[k]);
      }
      assert db.cleans[..|db.cleans|] == db.cleans;
      SumCounts(db.cleans, Hit(name, now, days), set i: nat | i < |db.cleans| && db.cleans[i].name == name
        && 0 <= days && now - db.cleans[i].at <= days * 24 * 60 * 60);
      return Some(count);
    }

    method GetAggregateStats(server: string) returns (stats: Stats)
      ensures stats.totalRuns == Sum(db.runs, RunsOf(server))
      ensures stats.totalRuns == |set i: nat | i < |db.runs| && db.runs[i].serverId == server|
      ensures stats.totalLogsCleaned == Sum(db.runs, LogsOf(server))
      ensures stats.totalReclaimed == Sum(db.runs, SpaceOf(server))
      ensures stats.avgDurationMs * (stats.totalRuns as real) == Sum(db.runs, DurationOf(server)) as real
      ensures stats.totalRuns == 0 ==> stats.avgDurationMs == 0.0
      ensures IsLatest(db.runs, server, stats.lastRunAt)
    {
      var n, logs, space, duration := 0, 0, 0, 0;
      var last := None;
      for k := 0 to |db.runs|
        invariant Totals(db.runs[..k], server, n, logs, space, duration)
        invariant IsLatest(db.runs[..k], server, last)
      {
        var r := db.runs[k];
        ghost var before := db.runs[..k];
        assert db.runs[..k + 1] == before + [r];
        TotalsSnoc(before, r, server, n, logs, space, duration);
        LatestSnoc(before, r, server, last);
        if r.serverId == server {
          n, logs, space, duration := n + 1, logs + r.logsCleaned, space + r.reclaimed, duration + r.durationMs;
        }
        last := Latest(last, r, server);
      }
      assert db.runs[..|db.runs|] == db.runs;
      RunCount(db.runs, server);
      stats := Stats(n, logs, space, Average(duration, n), last);
    }

    /** ListRuns: the server's rows, newest first. */
    method ListRuns(server: string, limit: int) returns (rows: seq<RunRow>)
      ensures TopOf(rows, ServerRuns(db.runs, server), RunAt, limit)
    {
      var mine := ServerRuns(db.runs, server);
      var a := new RunRow[|mine|](i requires 0 <= i < |mine| => mine[i]);
      assert a[..] == mine;
      SortDescending(a, RunAt);
      rows := Limited(a[..], limit);
    }

    /** GetTopContainersByCleanupCount: join, group, order by count, limit. */
    method GetTopContainers(server: string, limit: int, now: int, days: int) returns (result: seq<Frequency>)
      ensures IsTop(db, server, limit, now, days, result)
    {
      var names := CollectNames(server, now, days);
      var groups: seq<Frequency> := [];
      for k := 0 to |names|
        invariant |groups| == k
        invariant forall i :: 0 <= i < k ==> groups[i] == GroupRow(db, server, names[i], now, days)
      {
        groups := groups + [GroupRow(db, server, names[k], now, days)];
      }
      assert groups == GroupRows(db, server, now, days, names);
      var a := new Frequency[|groups|](i requires 0 <= i < |groups| => groups[i]);
      assert a[..] == groups;
      SortDescending(a, CountOf);
      result := Limited(a[..], limit);
    }

    method CollectNames(server: string, now: int, days: int) returns (names: seq<string>)
      ensures GroupNames(db, server, now, days, db.cleans, names)
    {
      names := [];
      for k := 0 to |db.cleans|
        invariant GroupNames(db, server, now, days, db.cleans[..k], names)
      {
        assert db.cleans[..k + 1] == db.cleans[..k] + [db.cleans[k]];
        GroupNamesSnoc(db, server, now, days, db.cleans[..k], db.cleans[k], names);
        names := NamesWith(db, server, db.cleans[k], now, days, names);
      }
      assert db.cleans[..|db.cleans|] == db.cleans;
    }
  }

  lemma RunCount(runs: seq<RunRow>, server: string)
    ensures Sum(runs, RunsOf(server)) == |set i: nat | i < |runs| && runs[i].serverId == server|
  {
    SumCounts(runs, RunsOf(server), set i: nat | i < |runs| && runs[i].serverId == server);
  }

  lemma LatestSnoc(runs: seq<RunRow>, r: RunRow, server: string, last: Option<int>)
    requires IsLatest(runs, server, last)
    ensures IsLatest(runs + [r], server, Latest(last, r, server))
  {
    var all := runs + [r];
    assert all[|runs|] == r;
    if last.Some? {
      var i :| 0 <= i < |runs| && runs[i].serverId == server && runs[i].at == last.value;
      assert all[i] == runs[i];
    }
  }

  lemma GroupNamesSnoc(db: Db, server: string, now: int, days: int, cleans: seq<CleanRow>, c: CleanRow, names: seq<string>)
    requires GroupNames(db, server, now, days, cleans, names)
    ensures GroupNames(db, server, now, days, cleans + [c], NamesWith(db, server, c, now, days, names))
  {
    var all := cleans + [c];
    var after := NamesWith(db, server, c, now, days, names);
    assert all[|cleans|] == c;
    forall n | n in after
      ensures exists i :: 0 <= i < |all| && all[i].name == n && Joins(db, server, all[i], now, days)
    {
      if n in names {
        var i :| 0 <= i < |cleans| && cleans[i].name == n && Joins(db, server, cleans[i], now, days);
        assert all[i] == cleans[i];
      }
    }
  }
}
