/** Over every schedule, a pipeline that goes on after Run finds the rows of its own run in the tables. */
module OwnRows {
  import opened Tables
  import opened Cleanup
  import opened History
  import opened Agent
  import opened Serial
  import opened Recording

  /** Rows are only ever added. */
  ghost predicate Grown(before: Db, after: Db) {
    before.runs <= after.runs && before.cleans <= after.cleans
  }

  lemma EventGrows(cfg: Config, w: World, e: Event)
    requires EventFits(cfg, w, e)
    ensures Grown(w.db, After(cfg, w, e).db)
  {
    if e.Ran? && Run(cfg, w, e.env).ending.Completed? { RunIsRecorded(cfg, w, e.env); }
  }

  lemma {:induction false} HistoryGrowsTables(cfg: Config, w: World, h: seq<Event>, k: nat)
    requires Legal(cfg, w, h) && k <= |h|
    ensures Legal(cfg, w, h[..k]) && Grown(Replay(cfg, w, h[..k]).db, Replay(cfg, w, h).db)
    decreases |h|
  {
    LegalPrefix(cfg, w, h, k);
    if k == |h| {
      assert h[..k] == h;
    } else {
      var n := |h| - 1;
      assert h[..n][..k] == h[..k];
      HistoryGrowsTables(cfg, w, h[..n], k);
      EventGrows(cfg, Replay(cfg, w, h[..n]), h[n]);
    }
  }

  lemma JobGrows(cfg: Config, w: World, job: Job)
    requires JobOk(cfg, w, job)
    ensures Grown(job.base.db, w.db)
  {
  }

  /** The run row at place i and the child rows from place j on say what the result says. */
  ghost predicate RowsAt(cfg: Config, db: Db, i: nat, j: nat, r: Result, at: int) {
    && i < |db.runs| && j + |r.allEntries| <= |db.cleans|
    && RowTells(cfg, db.runs[i], r, at)
    && forall k :: 0 <= k < |r.allEntries| ==> ChildTells(db.cleans[j + k], db.runs[i], r.allEntries[k])
  }

  lemma RowsStay(cfg: Config, before: Db, after: Db, i: nat, j: nat, r: Result, at: int)
    requires Grown(before, after) && RowsAt(cfg, before, i, j, r, at)
    ensures RowsAt(cfg, after, i, j, r, at)
  {
    assert after.runs[i] == before.runs[i];
    forall k | 0 <= k < |r.allEntries| ensures ChildTells(after.cleans[j + k], after.runs[i], r.allEntries[k]) {
      assert after.cleans[j + k] == before.cleans[j + k];
    }
  }

  lemma TurnHasRows(cfg: Config, w0: World, h: seq<Event>, k: nat, r: Result)
    requires Legal(cfg, w0, h) && k < |h| && h[k].Ran?
    requires Legal(cfg, w0, h[..k]) && EventFits(cfg, Replay(cfg, w0, h[..k]), h[k])
    requires Run(cfg, Replay(cfg, w0, h[..k]), h[k].env).ending == Completed(r) && Booked(cfg, r, h[k].env.fault)
    ensures var base := Replay(cfg, w0, h[..k]).db;
      RowsAt(cfg, Replay(cfg, w0, h).db, |base.runs|, |base.cleans|, r, h[k].env.at)
  {
    var before := Replay(cfg, w0, h[..k]);
    RunIsRecorded(cfg, before, h[k].env);
    assert h[..k + 1][..k] == h[..k];
    HistoryGrowsTables(cfg, w0, h, k + 1);
    var after := Replay(cfg, w0, h[..k + 1]).db;
    assert after == Run(cfg, before, h[k].env).world.db;
    RowsStay(cfg, after, Replay(cfg, w0, h).db, |before.db.runs|, |before.db.cleans|, r, h[k].env.at);
  }

  /**
   In every schedule, from the return of Run on and so when it analyses, a pipeline whose rows
   were committed finds them in the tables, whatever other pipelines and runs are doing: at the
   places where the serial order put them.
   */
  lemma PipelineSeesItsRows(cfg: Config, w0: World, ls: seq<Label>, p: nat)
    requires Possible(cfg, Boot(w0), ls)
    requires var procs := State(cfg, Boot(w0), ls).procs;
      p < |procs| && HasReceipt(procs[p]) && procs[p].receipt.booked
    ensures var s := State(cfg, Boot(w0), ls);
      var k := s.procs[p].receipt.turn;
      && Legal(cfg, w0, s.history) && k < |s.history| && s.history[k].Ran? && Legal(cfg, w0, s.history[..k])
      && var base := Replay(cfg, w0, s.history[..k]).db;
        RowsAt(cfg, s.world.db, |base.runs|, |base.cleans|, s.procs[p].receipt.result, s.history[k].env.at)
  {
    EveryScheduleIsSerial(cfg, w0, ls);
    var s := State(cfg, Boot(w0), ls);
    var receipt := s.procs[p].receipt;
    var k := receipt.turn;
    assert TurnOk(cfg, w0, s.history, s.procs[p]);
    LegalPrefix(cfg, w0, s.history, k);
    TurnHasRows(cfg, w0, s.history, k, receipt.result);
    var base := Replay(cfg, w0, s.history[..k]).db;
    if s.lock.ByRun? {
      JobGrows(cfg, s.world, s.procs[s.lock.pid].job);
    }
    RowsStay(cfg, Replay(cfg, w0, s.history).db, s.world.db, |base.runs|, |base.cleans|, receipt.result,
      s.history[k].env.at);
  }

  /** The places of the later turn lie behind the n entries of the earlier one. */
  ghost predicate RowsBehind(cfg: Config, w0: World, h: seq<Event>, k: nat, m: nat, n: nat)
    requires Legal(cfg, w0, h) && k < m <= |h|
  {
    LegalPrefix(cfg, w0, h, k);
    LegalPrefix(cfg, w0, h, m);
    var first, second := Replay(cfg, w0, h[..k]).db, Replay(cfg, w0, h[..m]).db;
    |first.runs| < |second.runs| && |first.cleans| + n <= |second.cleans|
  }

  lemma LaterTurn(cfg: Config, w0: World, h: seq<Event>, k: nat, m: nat, proc: Proc)
    requires Legal(cfg, w0, h) && k < m <= |h|
    requires TurnOk(cfg, w0, h, proc) && HasReceipt(proc) && proc.receipt.booked && proc.receipt.turn == k
    ensures RowsBehind(cfg, w0, h, k, m, |proc.receipt.result.allEntries|)
  {
    LegalPrefix(cfg, w0, h, k);
    LegalPrefix(cfg, w0, h, m);
    assert h[..m][..k] == h[..k];
    TurnHasRows(cfg, w0, h[..m], k, proc.receipt.result);
  }

  /** No two pipelines see the same rows: their turns differ, and later places lie behind earlier ones. */
  lemma RowsAreTheirOwn(cfg: Config, w0: World, ls: seq<Label>, p: nat, q: nat)
    requires Possible(cfg, Boot(w0), ls)
    requires var procs := State(cfg, Boot(w0), ls).procs;
      && p < |procs| && HasReceipt(procs[p]) && procs[p].receipt.booked
      && q < |procs| && HasReceipt(procs[q]) && p != q
    ensures var s := State(cfg, Boot(w0), ls);
      var k, m := s.procs[p].receipt.turn, s.procs[q].receipt.turn;
      && Legal(cfg, w0, s.history) && k != m && m < |s.history|
      && (k < m ==> RowsBehind(cfg, w0, s.history, k, m, |s.procs[p].receipt.result.allEntries|))
  {
    EveryScheduleIsSerial(cfg, w0, ls);
    var s := State(cfg, Boot(w0), ls);
    var k, m := s.procs[p].receipt.turn, s.procs[q].receipt.turn;
    assert TurnOk(cfg, w0, s.history, s.procs[p]) && TurnOk(cfg, w0, s.history, s.procs[q]);
    assert TurnOf(s.procs[p]) != TurnOf(s.procs[q]);
    if k < m { LaterTurn(cfg, w0, s.history, k, m, s.procs[p]); }
  }
}
