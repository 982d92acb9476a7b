/** What the queries say about each other and about the runs that filled the tables. */
module StorageLaws {
  import opened Sums
  import opened Tables
  import opened Ranking
  import opened Storage

  // ---- aggregate stats against the child rows ----

  /** Truncated child rows joined to the server's runs. */
  function TruncatedOf(runs: seq<RunRow>, server: string): CleanRow -> int {
    (c: CleanRow) => if c.wasTruncated && RunBelongs(runs, c.runId, server) then 1 else 0
  }

  lemma BelongsSnoc(runs: seq<RunRow>, r: RunRow, id: nat, server: string)
    ensures RunBelongs(runs + [r], id, server) <==> RunBelongs(runs, id, server) || (r.id == id && r.serverId == server)
  {
    var all := runs + [r];
    assert all[|runs|] == r;
    if RunBelongs(runs, id, server) {
      var i :| 0 <= i < |runs| && runs[i].id == id && runs[i].serverId == server;
      assert all[i] == runs[i];
    }
  }

  function TruncationsIf(b: bool, id: nat): CleanRow -> int {
    (c: CleanRow) => if b && c.runId == id && c.wasTruncated then 1 else 0
  }

  /** Keys are unique, so one more run adds exactly its own truncated children. */
  lemma OneMoreRun(cleans: seq<CleanRow>, runs: seq<RunRow>, r: RunRow, last: nat, server: string)
    requires RunKeys(runs + [r], last)
    ensures Sum(cleans, TruncatedOf(runs + [r], server))
      == Sum(cleans, TruncatedOf(runs, server)) + Sum(cleans, TruncationsIf(r.serverId == server, r.id))
  {
    var all := runs + [r];
    forall k | 0 <= k < |runs| ensures runs[k].id != r.id {
      assert all[k].id < all[|runs|].id;
    }
    forall i | 0 <= i < |cleans|
      ensures TruncatedOf(all, server)(cleans[i])
        == TruncatedOf(runs, server)(cleans[i]) + TruncationsIf(r.serverId == server, r.id)(cleans[i])
    {
      BelongsSnoc(runs, r, cleans[i].runId, server);
    }
    SumPlus(cleans, TruncatedOf(runs, server), TruncationsIf(r.serverId == server, r.id), TruncatedOf(all, server));
  }

  lemma {:induction false} LogsAreTruncations(cleans: seq<CleanRow>, runs: seq<RunRow>, last: nat, server: string)
    requires RunKeys(runs, last)
    requires forall k :: 0 <= k < |runs| ==> runs[k].logsCleaned == Sum(cleans, Truncations(runs[k].id))
    ensures Sum(runs, LogsOf(server)) == Sum(cleans, TruncatedOf(runs, server))
    decreases |runs|
  {
    if |runs| == 0 {
      SumZero(cleans, TruncatedOf(runs, server));
    } else {
      var n := |runs| - 1;
      var r, before := runs[n], runs[..n];
      LogsAreTruncations(cleans, before, last, server);
      assert runs == before + [r];
      OneMoreRun(cleans, before, r, last, server);
      TruncationsWhen(cleans, r.serverId == server, r.id);
      SumSnoc(before, r, LogsOf(server));
    }
  }

  lemma TruncationsWhen(cleans: seq<CleanRow>, b: bool, id: nat)
    ensures Sum(cleans, TruncationsIf(b, id)) == if b then Sum(cleans, Truncations(id)) else 0
  {
    if b {
      SumEq(cleans, cleans, TruncationsIf(b, id), Truncations(id));
    } else {
      SumZero(cleans, TruncationsIf(b, id));
    }
  }

  /** In tables in order, TotalLogsCleaned of a server is the number of its truncated child rows. */
  lemma AggregateCountsTruncations(db: Db, server: string)
    requires Books(db)
    ensures Sum(db.runs, LogsOf(server)) == Sum(db.cleans, TruncatedOf(db.runs, server))
  {
    forall k | 0 <= k < |db.runs| ensures db.runs[k].logsCleaned == Sum(db.cleans, Truncations(db.runs[k].id)) {
      assert Balanced(db, db.runs[k].id, db.runs[k].logsCleaned);
    }
    LogsAreTruncations(db.cleans, db.runs, db.lastRunId, server);
  }

  // ---- the two counting queries ----

  /** Some recent row of this name belongs to another server's run. */
  ghost predicate CountedElsewhere(db: Db, server: string, name: string, now: int, days: int) {
    exists i :: 0 <= i < |db.cleans| && Hit(name, now, days)(db.cleans[i]) == 1
      && !RunBelongs(db.runs, db.cleans[i].runId, server)
  }

  /**
   A group's count never exceeds GetContainerCleanupCount of its name, and equals it exactly
   when no recent row of that name belongs to another server.
   */
  lemma CountsAgreeExactly(db: Db, server: string, name: string, now: int, days: int)
    ensures GroupCount(db, server, name, now, days) <= CleanupCount(db, name, now, days)
    ensures GroupCount(db, server, name, now, days) == CleanupCount(db, name, now, days)
      <==> !CountedElsewhere(db, server, name, now, days)
  {
    var f, g := GroupHit(db, server, name, now, days), Hit(name, now, days);
    SumLe(db.cleans, db.cleans, f, g);
    if Sum(db.cleans, f) == Sum(db.cleans, g) {
      SumTight(db.cleans, f, g);
      forall i | 0 <= i < |db.cleans| && g(db.cleans[i]) == 1
        ensures RunBelongs(db.runs, db.cleans[i].runId, server)
      {
        assert f(db.cleans[i]) == g(db.cleans[i]);
      }
    }
    if !CountedElsewhere(db, server, name, now, days) {
      forall i | 0 <= i < |db.cleans| ensures f(db.cleans[i]) == g(db.cleans[i]) {
        if g(db.cleans[i]) == 1 { assert RunBelongs(db.runs, db.cleans[i].runId, server); }
      }
      SumEq(db.cleans, db.cleans, f, g);
    }
  }

  /** With one server and the keys in order nothing is counted elsewhere, so the queries agree. */
  lemma OneServerAgrees(db: Db, server: string, name: string, now: int, days: int)
    requires Keyed(db) && forall k :: 0 <= k < |db.runs| ==> db.runs[k].serverId == server
    ensures GroupCount(db, server, name, now, days) == CleanupCount(db, name, now, days)
  {
    forall i | 0 <= i < |db.cleans| ensures RunBelongs(db.runs, db.cleans[i].runId, server) {
      assert HasRun(db.runs, db.cleans[i].runId);
      var k :| 0 <= k < |db.runs| && db.runs[k].id == db.cleans[i].runId;
      assert db.runs[k].serverId == server;
    }
    CountsAgreeExactly(db, server, name, now, days);
  }

  /** A wider window counts at least as much; a negative one counts nothing. */
  lemma WindowsGrow(db: Db, server: string, name: string, now: int, days: int, more: int)
    requires days <= more
    ensures CleanupCount(db, name, now, days) <= CleanupCount(db, name, now, more)
    ensures GroupCount(db, server, name, now, days) <= GroupCount(db, server, name, now, more)
    ensures days < 0 ==> CleanupCount(db, name, now, days) == GroupCount(db, server, name, now, days) == 0
  {
    SumLe(db.cleans, db.cleans, Hit(name, now, days), Hit(name, now, more));
    SumLe(db.cleans, db.cleans, GroupHit(db, server, name, now, days), GroupHit(db, server, name, now, more));
    if days < 0 {
      SumZero(db.cleans, Hit(name, now, days));
      SumZero(db.cleans, GroupHit(db, server, name, now, days));
    }
  }

  // ---- the top list ----

  ghost predicate Listed(result: seq<Frequency>, name: string) {
    exists i :: 0 <= i < |result| && result[i].name == name
  }

  /** A child row takes part in the top list exactly when it is at most that many days old and its run is the server's. */
  lemma JoinsExactly(db: Db, server: string, c: CleanRow, now: int, days: int)
    ensures Joins(db, server, c, now, days) <==>
      && 0 <= days && now - c.at <= days * 24 * 60 * 60
      && exists i :: 0 <= i < |db.runs| && db.runs[i].id == c.runId && db.runs[i].serverId == server
  {
    if RunBelongs(db.runs, c.runId, server) {
      var i :| 0 <= i < |db.runs| && db.runs[i].id == c.runId && db.runs[i].serverId == server;
    }
  }

  /** One more child row adds its size to its group, if it takes part, and to no other group. */
  lemma RowAddsItsSize(db: Db, server: string, c: CleanRow, name: string, now: int, days: int)
    ensures Sum(db.cleans + [c], GroupSize(db, server, name, now, days))
      == Sum(db.cleans, GroupSize(db, server, name, now, days))
        + (if c.name == name && Joins(db, server, c, now, days) then c.size else 0)
    ensures Sum([], GroupSize(db, server, name, now, days)) == 0
  {
    SumSnoc(db.cleans, c, GroupSize(db, server, name, now, days));
  }

  /** Each returned row carries the number and the sizes of the joined rows of its name. */
  lemma TopRowsAreExact(db: Db, server: string, limit: int, now: int, days: int, result: seq<Frequency>, i: nat)
    requires IsTop(db, server, limit, now, days, result) && i < |result|
    ensures result[i] == GroupRow(db, server, result[i].name, now, days)
    ensures result[i].count == |set k: nat | k < |db.cleans| && db.cleans[k].name == result[i].name
      && Joins(db, server, db.cleans[k], now, days)|
    ensures result[i].totalSize == Sum(db.cleans, GroupSize(db, server, result[i].name, now, days))
    ensures 0 <= limit ==> |result| <= limit
  {
    SumCounts(db.cleans, GroupHit(db, server, result[i].name, now, days),
      set k: nat | k < |db.cleans| && db.cleans[k].name == result[i].name && Joins(db, server, db.cleans[k], now, days));
    var names, order := TopOrder(db, server, limit, now, days, result);
    var rows := GroupRows(db, server, now, days, names);
    SameElements(order, rows, CountOf, order[i]);
    var k :| 0 <= k < |rows| && rows[k] == order[i];
  }

  /** A container with recent rows is either returned, or the list is full of no smaller counts. */
  lemma TopOmitsNoLarger(db: Db, server: string, limit: int, now: int, days: int, result: seq<Frequency>, c: CleanRow)
    requires IsTop(db, server, limit, now, days, result)
    requires c in db.cleans && Joins(db, server, c, now, days)
    ensures Listed(result, c.name) ||
      (0 <= limit == |result| &&
       forall i :: 0 <= i < |result| ==> GroupCount(db, server, c.name, now, days) <= result[i].count)
  {
    var names, order := TopOrder(db, server, limit, now, days, result);
    var rows := GroupRows(db, server, now, days, names);
    var k := NameIndex(db, server, now, days, names, c);
    SameElements(order, rows, CountOf, rows[k]);
    var j :| 0 <= j < |order| && order[j] == rows[k];
    if j < |result| {
      assert result[j].name == c.name;
    } else {
      forall i | 0 <= i < |result| ensures GroupCount(db, server, c.name, now, days) <= result[i].count {
        assert CountOf(order[i]) >= CountOf(order[j]);
      }
    }
  }

  /** The list is sorted by count and has no name twice. */
  lemma TopIsSorted(db: Db, server: string, limit: int, now: int, days: int, result: seq<Frequency>, i: nat, j: nat)
    requires IsTop(db, server, limit, now, days, result) && i < j < |result|
    ensures result[i].count >= result[j].count && result[i].name != result[j].name
  {
    var names, order := TopOrder(db, server, limit, now, days, result);
    var rows := GroupRows(db, server, now, days, names);
    assert CountOf(order[i]) >= CountOf(order[j]);
    if order[i].name == order[j].name {
      var same := (f: Frequency) => if f.name == order[i].name then 1 else 0;
      SumTwo(order, i, j, same);
      SumBag(order, rows, same);
      SumAtMostOne(rows, same);
    }
  }

  /** The groups and the ranking behind a result. */
  lemma TopOrder(db: Db, server: string, limit: int, now: int, days: int, result: seq<Frequency>)
    returns (names: seq<string>, order: seq<Frequency>)
    requires IsTop(db, server, limit, now, days, result)
    ensures GroupNames(db, server, now, days, db.cleans, names)
    ensures Ranks(order, GroupRows(db, server, now, days, names), CountOf) && result == Limited(order, limit)
  {
    names :| GroupNames(db, server, now, days, db.cleans, names)
      && TopOf(result, GroupRows(db, server, now, days, names), CountOf, limit);
    order :| Ranks(order, GroupRows(db, server, now, days, names), CountOf) && result == Limited(order, limit);
  }

  lemma NameIndex(db: Db, server: string, now: int, days: int, names: seq<string>, c: CleanRow) returns (k: nat)
    requires GroupNames(db, server, now, days, db.cleans, names)
    requires c in db.cleans && Joins(db, server, c, now, days)
    ensures k < |names| && names[k] == c.name
  {
    var i :| 0 <= i < |db.cleans| && db.cleans[i] == c;
    assert db.cleans[i].name in names;
    k :| 0 <= k < |names| && names[k] == c.name;
  }

  // ---- the counts of all groups ----

  function CountIn(db: Db, server: string, now: int, days: int, cleans: seq<CleanRow>): string -> int {
    (name: string) => Sum(cleans, GroupHit(db, server, name, now, days))
  }

  function HitOf(db: Db, server: string, now: int, days: int, c: CleanRow): string -> int {
    (name: string) => if c.name == name && Joins(db, server, c, now, days) then 1 else 0
  }

  ghost predicate DistinctNames(names: seq<string>) { forall i, j :: 0 <= i < j < |names| ==> names[i] != names[j] }

  lemma RowHitsOneGroup(db: Db, server: string, now: int, days: int, names: seq<string>, c: CleanRow)
    requires DistinctNames(names) && (Joins(db, server, c, now, days) ==> c.name in names)
    ensures Sum(names, HitOf(db, server, now, days, c)) == JoinHit(db, server, now, days)(c)
  {
    var f := HitOf(db, server, now, days, c);
    if Joins(db, server, c, now, days) {
      var k :| 0 <= k < |names| && names[k] == c.name;
      SumWithout(names, k, f);
      var rest := Without(names, k);
      forall i | 0 <= i < |rest| ensures f(rest[i]) == 0 {
        assert rest[i] == names[if i < k then i else i + 1];
      }
      SumZero(rest, f);
    } else {
      SumZero(names, f);
    }
  }

  lemma {:induction false} GroupsPartition(db: Db, server: string, now: int, days: int, names: seq<string>,
                                           cleans: seq<CleanRow>)
    requires DistinctNames(names)
    requires forall i :: 0 <= i < |cleans| && Joins(db, server, cleans[i], now, days) ==> cleans[i].name in names
    ensures Sum(names, CountIn(db, server, now, days, cleans)) == Sum(cleans, JoinHit(db, server, now, days))
    decreases |cleans|
  {
    if |cleans| == 0 {
      SumZero(names, CountIn(db, server, now, days, cleans));
    } else {
      var n := |cleans| - 1;
      GroupsPartition(db, server, now, days, names, cleans[..n]);
      RowHitsOneGroup(db, server, now, days, names, cleans[n]);
      SumPlus(names, CountIn(db, server, now, days, cleans[..n]), HitOf(db, server, now, days, cleans[n]),
        CountIn(db, server, now, days, cleans));
    }
  }

  lemma RowsTotal(db: Db, server: string, now: int, days: int, names: seq<string>)
    requires GroupNames(db, server, now, days, db.cleans, names)
    ensures var rows := GroupRows(db, server, now, days, names);
      && Sum(rows, CountOf) == Sum(db.cleans, JoinHit(db, server, now, days))
      && forall i :: 0 <= i < |rows| ==> 0 <= CountOf(rows[i])
  {
    var rows := GroupRows(db, server, now, days, names);
    GroupsPartition(db, server, now, days, names, db.cleans);
    SumEq(rows, names, CountOf, CountIn(db, server, now, days, db.cleans));
    forall i | 0 <= i < |rows| ensures 0 <= CountOf(rows[i]) {
      SumNonNegative(db.cleans, GroupHit(db, server, names[i], now, days));
    }
  }

  /** The returned counts never exceed the joined rows in the window, and sum to them unless the limit is reached. */
  lemma TopCountsSum(db: Db, server: string, limit: int, now: int, days: int, result: seq<Frequency>)
    requires IsTop(db, server, limit, now, days, result)
    ensures Sum(result, CountOf) <= Sum(db.cleans, JoinHit(db, server, now, days))
    ensures |result| != limit ==> Sum(result, CountOf) == Sum(db.cleans, JoinHit(db, server, now, days))
  {
    var names, order := TopOrder(db, server, limit, now, days, result);
    var rows := GroupRows(db, server, now, days, names);
    RowsTotal(db, server, now, days, names);
    SumBag(order, rows, CountOf);
    var rest := order[|result|..];
    assert order == result + rest;
    SumConcat(result, rest, CountOf);
    forall i | 0 <= i < |rest| ensures 0 <= CountOf(rest[i]) {
      SameElements(order, rows, CountOf, order[|result| + i]);
    }
    SumNonNegative(rest, CountOf);
  }

  // ---- the newest runs ----

  lemma {:induction false} ServerRunsTell(runs: seq<RunRow>, server: string, r: RunRow)
    ensures r in ServerRuns(runs, server) <==> r in runs && r.serverId == server
    ensures multiset(ServerRuns(runs, server))[r] == if r.serverId == server then multiset(runs)[r] else 0
    decreases |runs|
  {
    if |runs| > 0 {
      var n := |runs| - 1;
      ServerRunsTell(runs[..n], server, r);
      assert runs == runs[..n] + [runs[n]];
    }
  }

  /**
   ListRuns: rows of the server, newest first, each as often as in the table, no more than the
   limit; a row that is left out is no newer than any listed one, and the list is then full.
   */
  lemma NewestRuns(db: Db, server: string, limit: int, rows: seq<RunRow>)
    requires TopOf(rows, ServerRuns(db.runs, server), RunAt, limit)
    ensures forall i :: 0 <= i < |rows| ==> rows[i] in db.runs && rows[i].serverId == server
    ensures forall i, j :: 0 <= i < j < |rows| ==> rows[i].at >= rows[j].at
    ensures 0 <= limit ==> |rows| <= limit
    ensures forall r :: r in db.runs && r.serverId == server ==>
      multiset(rows)[r] == multiset(db.runs)[r]
      || (0 <= limit == |rows| && forall i :: 0 <= i < |rows| ==> r.at <= rows[i].at)
    ensures forall r :: multiset(rows)[r] <= multiset(db.runs)[r]
  {
    var mine := ServerRuns(db.runs, server);
    var order :| Ranks(order, mine, RunAt) && rows == Limited(order, limit);
    forall i | 0 <= i < |rows| ensures rows[i] in db.runs && rows[i].serverId == server {
      SameElements(order, mine, RunAt, order[i]);
      ServerRunsTell(db.runs, server, order[i]);
    }
    forall i, j | 0 <= i < j < |rows| ensures rows[i].at >= rows[j].at {
      assert RunAt(order[i]) >= RunAt(order[j]);
    }
    forall r ensures multiset(rows)[r] <= multiset(db.runs)[r] {
      ServerRunsTell(db.runs, server, r);
      assert order == rows + order[|rows|..];
      assert multiset(order)[r] == multiset(mine)[r];
    }
    forall r | r in db.runs && r.serverId == server && multiset(rows)[r] != multiset(db.runs)[r]
      ensures 0 <= limit == |rows| && forall i :: 0 <= i < |rows| ==> r.at <= rows[i].at
    {
      ServerRunsTell(db.runs, server, r);
      LeftOut(order, mine, rows, r);
    }
  }

  lemma LeftOut(order: seq<RunRow>, mine: seq<RunRow>, rows: seq<RunRow>, r: RunRow)
    requires Ranks(order, mine, RunAt) && rows <= order && multiset(rows)[r] != multiset(mine)[r]
    ensures rows != order && forall i :: 0 <= i < |rows| ==> r.at <= rows[i].at
  {
    var rest := order[|rows|..];
    assert order == rows + rest;
    assert multiset(rest)[r] > 0 && r in rest;
    var k :| 0 <= k < |rest| && rest[k] == r;
    forall i | 0 <= i < |rows| ensures r.at <= rows[i].at {
      assert RunAt(order[i]) >= RunAt(order[|rows| + k]);
    }
  }

  // ---- the totals of a server ----

  function LogsIn(r: RunRow): int { r.logsCleaned }

  function SpaceIn(r: RunRow): int { r.reclaimed }

  function DurationIn(r: RunRow): int { r.durationMs }

  lemma {:induction false} ColumnTotal(runs: seq<RunRow>, server: string, f: RunRow -> int, g: RunRow -> int)
    requires forall r: RunRow :: f(r) == if r.serverId == server then g(r) else 0
    ensures Sum(runs, f) == Sum(ServerRuns(runs, server), g)
    decreases |runs|
  {
    if |runs| > 0 {
      var n := |runs| - 1;
      ColumnTotal(runs[..n], server, f, g);
      SumSnoc(ServerRuns(runs[..n], server), runs[n], g);
    }
  }

  /** The two run queries agree: the aggregates are the totals of the full list of the server's runs. */
  lemma AggregatesAgreeWithList(db: Db, server: string, limit: int, rows: seq<RunRow>)
    requires TopOf(rows, ServerRuns(db.runs, server), RunAt, limit) && limit < 0
    ensures |rows| == Sum(db.runs, RunsOf(server))
    ensures Sum(rows, LogsIn) == Sum(db.runs, LogsOf(server))
    ensures Sum(rows, SpaceIn) == Sum(db.runs, SpaceOf(server))
    ensures Sum(rows, DurationIn) == Sum(db.runs, DurationOf(server))
  {
    var mine := ServerRuns(db.runs, server);
    var one := (r: RunRow) => 1;
    ColumnTotal(db.runs, server, RunsOf(server), one);
    SumOnes(mine, one);
    ColumnTotal(db.runs, server, LogsOf(server), LogsIn);
    ColumnTotal(db.runs, server, SpaceOf(server), SpaceIn);
    ColumnTotal(db.runs, server, DurationOf(server), DurationIn);
    SumBag(rows, mine, LogsIn);
    SumBag(rows, mine, SpaceIn);
    SumBag(rows, mine, DurationIn);
  }
}
