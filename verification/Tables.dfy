/**
 internal/storage/sqlite.go as values: the tables, the transaction that records a run, and
 the invariant the foreign key and the auto-increment keys give.
 */
module Tables {
  import opened Sums

  datatype RunRow = RunRow(
    id: nat, at: int, serverId: string, logsCleaned: nat, reclaimed: nat,
    durationMs: int, errors: seq<string>, dryRun: bool)

  datatype CleanRow = CleanRow(
    id: nat, runId: nat, name: string, image: string, size: nat, wasTruncated: bool, at: int)

  datatype SnapshotRow = SnapshotRow(containerId: string, name: string, size: nat)

  /** The last ids handed out are part of the state: AUTOINCREMENT never reuses one. */
  datatype Db = Db(
    runs: seq<RunRow>, cleans: seq<CleanRow>, snapshots: seq<SnapshotRow>,
    lastRunId: nat, lastCleanId: nat)

  const EmptyDb := Db([], [], [], 0, 0)

  datatype CleanInput = CleanInput(name: string, image: string, size: nat, wasTruncated: bool)

  datatype RunInput = RunInput(
    serverId: string, logsCleaned: nat, reclaimed: nat, durationMs: int,
    errors: seq<string>, dryRun: bool, containers: seq<CleanInput>)

  /** Which statement of the transaction fails, if any. */
  datatype Fault = NoFault | BeginFails | InsertRunFails | LastIdFails | InsertCleanFails(nth: nat) | CommitFails

  predicate Commits(fault: Fault, containers: nat) {
    fault.NoFault? || (fault.InsertCleanFails? && containers <= fault.nth)
  }

  function ToRunRow(input: RunInput, id: nat, at: int): RunRow {
    RunRow(id, at, input.serverId, input.logsCleaned, input.reclaimed, input.durationMs, input.errors, input.dryRun)
  }

  function ToCleanRow(c: CleanInput, id: nat, runId: nat, at: int): CleanRow {
    CleanRow(id, runId, c.name, c.image, c.size, c.wasTruncated, at)
  }

  /** The child rows of one run, with consecutive ids after `last`. */
  function ChildRows(cs: seq<CleanInput>, last: nat, runId: nat, at: int): (rows: seq<CleanRow>)
    ensures |rows| == |cs|
  {
    seq(|cs|, i requires 0 <= i < |cs| => ToCleanRow(cs[i], last + i + 1, runId, at))
  }

  /** The committed transaction. */
  function Recorded(db: Db, input: RunInput, at: int): Db {
    var runId := db.lastRunId + 1;
    Db(db.runs + [ToRunRow(input, runId, at)],
       db.cleans + ChildRows(input.containers, db.lastCleanId, runId, at),
       db.snapshots, runId, db.lastCleanId + |input.containers|)
  }

  /** RecordRun is all or nothing. */
  function Record(db: Db, input: RunInput, at: int, fault: Fault): Db {
    if Commits(fault, |input.containers|) then Recorded(db, input, at) else db
  }

  function Snapped(db: Db, row: SnapshotRow): Db { db.(snapshots := db.snapshots + [row]) }

  // ---- keys ----

  ghost predicate RunKeys(runs: seq<RunRow>, last: nat) {
    && (forall i, j :: 0 <= i < j < |runs| ==> runs[i].id < runs[j].id)
    && (forall i :: 0 <= i < |runs| ==> runs[i].id <= last)
  }

  ghost predicate CleanKeys(cleans: seq<CleanRow>, last: nat) {
    && (forall i, j :: 0 <= i < j < |cleans| ==> cleans[i].id < cleans[j].id)
    && (forall i :: 0 <= i < |cleans| ==> cleans[i].id <= last)
  }

  ghost predicate HasRun(runs: seq<RunRow>, id: nat) {
    exists i :: 0 <= i < |runs| && runs[i].id == id
  }

  ghost predicate Parented(runs: seq<RunRow>, cleans: seq<CleanRow>) {
    forall i :: 0 <= i < |cleans| ==> HasRun(runs, cleans[i].runId)
  }

  /** Keys are strictly increasing, and every child names a run that exists. */
  ghost predicate Keyed(db: Db) {
    RunKeys(db.runs, db.lastRunId) && CleanKeys(db.cleans, db.lastCleanId) && Parented(db.runs, db.cleans)
  }

  lemma ParentedAfter(db: Db, row: RunRow, children: seq<CleanRow>)
    requires Parented(db.runs, db.cleans)
    requires forall i :: 0 <= i < |children| ==> children[i].runId == row.id
    ensures Parented(db.runs + [row], db.cleans + children)
  {
    var runs, cleans := db.runs + [row], db.cleans + children;
    forall i | 0 <= i < |cleans| ensures HasRun(runs, cleans[i].runId) {
      if i < |db.cleans| {
        assert cleans[i] == db.cleans[i];
        var k :| 0 <= k < |db.runs| && db.runs[k].id == db.cleans[i].runId;
        assert runs[k] == db.runs[k];
      } else {
        assert cleans[i] == children[i - |db.cleans|];
        assert runs[|db.runs|] == row;
      }
    }
  }

  lemma RunKeysSnoc(runs: seq<RunRow>, row: RunRow, last: nat)
    requires RunKeys(runs, last) && row.id == last + 1
    ensures RunKeys(runs + [row], last + 1)
  {
  }

  lemma CleanKeysAppend(cleans: seq<CleanRow>, last: nat, rows: seq<CleanRow>)
    requires CleanKeys(cleans, last)
    requires forall i :: 0 <= i < |rows| ==> rows[i].id == last + i + 1
    ensures CleanKeys(cleans + rows, last + |rows|)
  {
  }

  lemma RecordKeyed(db: Db, input: RunInput, at: int, fault: Fault)
    requires Keyed(db)
    ensures Keyed(Record(db, input, at, fault))
  {
    if Commits(fault, |input.containers|) {
      var id := db.lastRunId + 1;
      var row, children := ToRunRow(input, id, at), ChildRows(input.containers, db.lastCleanId, id, at);
      RunKeysSnoc(db.runs, row, db.lastRunId);
      CleanKeysAppend(db.cleans, db.lastCleanId, children);
      ParentedAfter(db, row, children);
    }
  }

  // ---- the books: a run row counts its truncated children ----

  function Truncations(id: nat): CleanRow -> int {
    (c: CleanRow) => if c.runId == id && c.wasTruncated then 1 else 0
  }

  function TruncatedInput(c: CleanInput): int { if c.wasTruncated then 1 else 0 }

  ghost predicate Balanced(db: Db, id: nat, logsCleaned: nat) {
    logsCleaned == Sum(db.cleans, Truncations(id))
  }

  ghost predicate AllBalanced(db: Db) {
    forall k :: 0 <= k < |db.runs| ==> Balanced(db, db.runs[k].id, db.runs[k].logsCleaned)
  }

  /** logs_cleaned of every run row is the number of its child rows with was_truncated set. */
  ghost predicate Books(db: Db) { Keyed(db) && AllBalanced(db) }

  lemma NoChildrenYet(db: Db)
    requires Keyed(db)
    ensures Sum(db.cleans, Truncations(db.lastRunId + 1)) == 0
  {
    forall i | 0 <= i < |db.cleans| ensures Truncations(db.lastRunId + 1)(db.cleans[i]) == 0 {
      assert HasRun(db.runs, db.cleans[i].runId);
    }
    SumZero(db.cleans, Truncations(db.lastRunId + 1));
  }

  lemma OldRunKeepsBalance(db: Db, input: RunInput, at: int, id: nat, logsCleaned: nat)
    requires id <= db.lastRunId && Balanced(db, id, logsCleaned)
    ensures Balanced(Recorded(db, input, at), id, logsCleaned)
  {
    var children := ChildRows(input.containers, db.lastCleanId, db.lastRunId + 1, at);
    SumConcat(db.cleans, children, Truncations(id));
    SumZero(children, Truncations(id));
  }

  lemma NewRunBalances(db: Db, input: RunInput, at: int)
    requires Keyed(db)
    requires input.logsCleaned == Sum(input.containers, TruncatedInput)
    ensures Balanced(Recorded(db, input, at), db.lastRunId + 1, input.logsCleaned)
  {
    var id := db.lastRunId + 1;
    var children := ChildRows(input.containers, db.lastCleanId, id, at);
    NoChildrenYet(db);
    SumConcat(db.cleans, children, Truncations(id));
    SumEq(children, input.containers, Truncations(id), TruncatedInput);
  }

  lemma RecordBooks(db: Db, input: RunInput, at: int, fault: Fault)
    requires Books(db)
    requires input.logsCleaned == Sum(input.containers, TruncatedInput)
    ensures Books(Record(db, input, at, fault))
  {
    RecordKeyed(db, input, at, fault);
    if Commits(fault, |input.containers|) {
      var after := Recorded(db, input, at);
      forall k | 0 <= k < |after.runs| ensures Balanced(after, after.runs[k].id, after.runs[k].logsCleaned) {
        if k < |db.runs| {
          OldRunKeepsBalance(db, input, at, db.runs[k].id, db.runs[k].logsCleaned);
        } else {
          NewRunBalances(db, input, at);
        }
      }
    }
  }
}
