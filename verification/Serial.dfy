/**
 Serialisation: whatever the interleaving, the shared world is the one that the accepted
 calls of Run produce one after another in lock order, and calls that find the lock taken
 leave no trace.
 */
module Serial {
  import opened Sums
  import opened LogFiles
  import opened Policies
  import opened Docker
  import opened Tables
  import opened Ranking
  import opened Cleanup
  import opened History
  import opened Agent

  // ---- the lock ----

  /** The lock is held by a run exactly while that run is between TryLock and its return. */
  ghost predicate LockInv(s: System) {
    && (forall p :: 0 <= p < |s.procs| ==> (s.procs[p].Running? <==> s.lock == ByRun(p)))
    && (s.lock.ByRun? ==> s.lock.pid < |s.procs|)
    && (forall r :: 0 <= r < |s.readers| ==> (s.readers[r].Holding? <==> s.lock == ByReader(r)))
    && (s.lock.ByReader? ==> s.lock.rid < |s.readers|)
  }

  /** A step of one pipeline that neither enters nor leaves Run. */
  lemma LockSame(s: System, t: System, p: nat)
    requires LockInv(s) && p < |s.procs| == |t.procs| && t.procs == s.procs[p := t.procs[p]]
    requires t.lock == s.lock && t.readers == s.readers
    requires t.procs[p].Running? == s.procs[p].Running?
    ensures LockInv(t)
  {
  }

  lemma LockEnter(s: System, p: nat, at: int)
    requires LockInv(s) && p < |s.procs| && s.procs[p].Started?
    ensures LockInv(DoEnter(s, p, at))
  {
    assert !s.procs[p].Running?;
  }

  lemma LockRelease(cfg: Config, s: System, p: nat)
    requires LockInv(s) && InRun(s, p) && s.procs[p].job.phase.Releasing?
    ensures LockInv(DoRelease(cfg, s, p))
  {
    assert s.lock == ByRun(p);
  }

  lemma LockReaders(cfg: Config, s: System, l: Label)
    requires LockInv(s) && (l.Ask? || l.Take? || l.Give?) && Enabled(cfg, s, l)
    ensures LockInv(Next(cfg, s, l))
  {
    if l.Give? { assert s.lock == ByReader(l.r); }
  }

  /** The pipeline that takes this step without entering or leaving Run. */
  function Walker(l: Label): Option<nat> {
    match l
    case Inside(p, _) => Some(p)
    case CountError(p) => Some(p)
    case Advance(p, _) => Some(p)
    case Crash(p) => Some(p)
    case _ => None
  }

  /** Such a step changes its own pipeline and nothing about the others, the lock or the order. */
  lemma WalkFrame(cfg: Config, s: System, l: Label)
    requires Enabled(cfg, s, l) && Walker(l).Some?
    ensures var t, p := Next(cfg, s, l), Walker(l).value;
      && p < |s.procs| == |t.procs| && t.procs == s.procs[p := t.procs[p]]
      && t.procs[p].Running? == s.procs[p].Running?
      && t.lock == s.lock && t.readers == s.readers && t.history == s.history
      && t.main == s.main && t.initial == s.initial
      && (!l.Inside? ==> t.world == s.world)
  {
  }

  lemma LockStep(cfg: Config, s: System, l: Label)
    requires LockInv(s) && Enabled(cfg, s, l)
    ensures LockInv(Next(cfg, s, l))
  {
    if Walker(l).Some? {
      WalkFrame(cfg, s, l);
      LockSame(s, Next(cfg, s, l), Walker(l).value);
    } else {
      LockOther(cfg, s, l);
    }
  }

  lemma LockOther(cfg: Config, s: System, l: Label)
    requires LockInv(s) && Enabled(cfg, s, l) && Walker(l).None?
    ensures LockInv(Next(cfg, s, l))
  {
    match l
    case Write(a) =>
      if s.lock.ByRun? && InRun(s, s.lock.pid) { LockSame(s, DoWrite(s, a), s.lock.pid); }
    case Main(c) =>
    case Enter(p, at) => LockEnter(s, p, at);
    case Release(p) => LockRelease(cfg, s, p);
    case Ask => LockReaders(cfg, s, l);
    case Take(r) => LockReaders(cfg, s, l);
    case Give(r) => LockReaders(cfg, s, l);
  }

  // ---- one run in progress ----

  /** The part of the world that a run has not touched yet, with the files as given. */
  ghost predicate WorldIs(w: World, files: Files, db: Db, last: Result) {
    w.files == files && w.db == db && w.last == last
  }

  function DbWith(b: World, scan: Scan): Db { b.db.(snapshots := scan.snapshots) }

  ghost predicate ScanOk(cfg: Config, job: Job) {
    && job.env.paths.Some?
    && |job.env.probes| <= |job.env.paths.value|
    && job.scan == ScanAll(cfg, job.env.paths.value, job.env.probes, StartScan(job.base))
  }

  ghost predicate SweepOk(cfg: Config, job: Job) {
    && ScanOk(cfg, job)
    && |job.env.probes| == |job.env.paths.value|
    && Ranks(job.env.order, job.scan.entries, EntrySize)
    && |job.env.acts| <= |job.env.order| == |job.sweep.all|
    && job.sweep == SweepAll(cfg, job.env.acts, StartSweep(cfg, job.scan, job.env.order))
  }

  ghost predicate SweptOk(cfg: Config, job: Job) {
    && SweepOk(cfg, job)
    && |job.env.acts| == |job.env.order| == |job.env.inspects|
  }

  ghost predicate ResultOk(cfg: Config, job: Job, r: Result) {
    && SweptOk(cfg, job)
    && var insights := RunInsights(cfg, job.env.order, job.env.inspects);
      insights.Some?
      && r == ToResult(cfg, job.env.order, job.sweep, insights.value, job.env.startedAt, job.env.finishedAt)
  }

  function Saved(cfg: Config, job: Job, r: Result): Db {
    Persist(cfg, DbWith(job.base, job.scan), r, job.env.at, job.env.fault)
  }

  ghost predicate HalfOk(cfg: Config, job: Job, half: Half) {
    && AtEntry(job) && Touches(cfg, Current(job))
    && Stated(WrittenAll(job.sweep.files, half.tick.writes), Current(job).path, half.tick.ok) == Some(half.size)
  }

  /**
   What the world looks like while this job runs: the serial prefix of the run on the world
   it started from, with the appends since its last system call on top.
   */
  ghost predicate JobOk(cfg: Config, w: World, job: Job) {
    match job.phase
    case Discovering =>
      && job.scan == StartScan(job.base) && job.env.probes == [] && job.env.acts == []
      && WorldIs(w, WrittenAll(job.base.files, job.pending), job.base.db, job.base.last)
    case Scanning =>
      && ScanOk(cfg, job) && job.env.acts == []
      && WorldIs(w, WrittenAll(job.scan.files, job.pending), DbWith(job.base, job.scan), job.base.last)
    case Sweeping(half) =>
      && SweepOk(cfg, job)
      && (half.Some? ==> HalfOk(cfg, job, half.value))
      && WorldIs(w, WrittenAll(if half.None? then job.sweep.files
                               else WrittenAll(job.sweep.files, half.value.tick.writes), job.pending),
           DbWith(job.base, job.scan), job.base.last)
    case Persisting(r) =>
      && ResultOk(cfg, job, r)
      && WorldIs(w, WrittenAll(job.sweep.files, job.pending), DbWith(job.base, job.scan), job.base.last)
    case Publishing(r) =>
      && ResultOk(cfg, job, r)
      && WorldIs(w, WrittenAll(job.sweep.files, job.pending), Saved(cfg, job, r), job.base.last)
    case Releasing(ending) =>
      match ending
      case DiscoverFailed =>
        && job.env.paths.None?
        && WorldIs(w, WrittenAll(job.base.files, job.pending), job.base.db, job.base.last)
      case Panicked =>
        && SweptOk(cfg, job) && RunInsights(cfg, job.env.order, job.env.inspects).None?
        && WorldIs(w, WrittenAll(job.sweep.files, job.pending), DbWith(job.base, job.scan), job.base.last)
      case Completed(r) =>
        && ResultOk(cfg, job, r)
        && WorldIs(w, WrittenAll(job.sweep.files, job.pending), Saved(cfg, job, r), r)
  }

  /** When the job is about to release, the world is the outcome of the whole run plus appends. */
  lemma JobDone(cfg: Config, w: World, job: Job)
    requires JobOk(cfg, w, job) && job.phase.Releasing?
    ensures Fits(cfg, job.base, job.env)
    ensures Run(cfg, job.base, job.env).ending == job.phase.ending
    ensures var out := Run(cfg, job.base, job.env).world;
      w == out.(files := WrittenAll(out.files, job.pending))
  {
  }

  lemma StatKeeps(cfg: Config, w: World, job: Job, ok: bool, inspect: Inspect, snapshotOk: bool)
    requires CanStep(cfg, job, StatOne(ok, inspect, snapshotOk)) && JobOk(cfg, w, job)
    ensures var m := DoStat(cfg, w, job, ok, inspect, snapshotOk);
      JobOk(cfg, m.world, m.job) && m.job.base == job.base
  {
    var seen := Probe(Tick(job.pending, ok), inspect, snapshotOk);
    assert (job.env.probes + [seen])[..|job.env.probes|] == job.env.probes;
  }

  lemma DecideKeeps(cfg: Config, w: World, job: Job)
    requires CanStep(cfg, job, Decide) && JobOk(cfg, w, job)
    ensures var m := DoDecide(cfg, w, job);
      JobOk(cfg, m.world, m.job) && m.job.base == job.base
  {
    var act := Act(Tick(job.pending, true), Tick([], true));
    assert (job.env.acts + [act])[..|job.env.acts|] == job.env.acts;
    assert ActWrites(act) == job.pending;
  }

  lemma FailedStat(cfg: Config, act: Act, i: nat, sweep: Sweep, files: Files)
    requires i < |sweep.all| && Touches(cfg, sweep.all[i])
    requires files == WrittenAll(sweep.files, act.stat.writes) && |act.change.writes| == 0
    requires Stated(files, sweep.all[i].path, act.stat.ok).None?
    ensures SweepStep(cfg, act, i, sweep) == Report(i, sweep, Applied(files, None))
  {
  }

  lemma MeasureFails(cfg: Config, w: World, job: Job, ok: bool)
    requires CanStep(cfg, job, Measure(ok)) && JobOk(cfg, w, job)
    requires Stated(w.files, Current(job).path, ok).None?
    ensures var m := DoMeasure(cfg, w, job, ok);
      JobOk(cfg, m.world, m.job) && m.job.base == job.base
  {
    var act := Act(Tick(job.pending, ok), Tick([], true));
    assert (job.env.acts + [act])[..|job.env.acts|] == job.env.acts;
    FailedStat(cfg, act, |job.env.acts|, job.sweep, w.files);
  }

  lemma MeasureKeeps(cfg: Config, w: World, job: Job, ok: bool)
    requires CanStep(cfg, job, Measure(ok)) && JobOk(cfg, w, job)
    ensures var m := DoMeasure(cfg, w, job, ok);
      JobOk(cfg, m.world, m.job) && m.job.base == job.base
  {
    if Stated(w.files, Current(job).path, ok).None? { MeasureFails(cfg, w, job, ok); }
  }

  lemma ChangeKeeps(cfg: Config, w: World, job: Job, ok: bool)
    requires CanStep(cfg, job, Change(ok)) && JobOk(cfg, w, job)
    ensures var m := DoChange(cfg, w, job, ok);
      JobOk(cfg, m.world, m.job) && m.job.base == job.base
  {
    var act := Act(job.phase.half.value.tick, Tick(job.pending, ok));
    assert (job.env.acts + [act])[..|job.env.acts|] == job.env.acts;
  }

  lemma CollectKeeps(cfg: Config, w: World, job: Job, inspects: seq<Inspect>, at: int)
    requires CanStep(cfg, job, Collect(inspects, at)) && JobOk(cfg, w, job)
    ensures var m := DoCollect(cfg, w, job, inspects, at);
      JobOk(cfg, m.world, m.job) && m.job.base == job.base
  {
  }

  lemma BetweenKeeps(cfg: Config, w: World, job: Job, step: RunStep)
    requires CanStep(cfg, job, step) && JobOk(cfg, w, job)
    requires step.Discover? || step.SaveRun? || step.Publish?
    ensures var m := DoStep(cfg, w, job, step);
      JobOk(cfg, m.world, m.job) && m.job.base == job.base
  {
  }

  lemma SortKeeps(cfg: Config, w: World, job: Job, order: seq<LogEntry>)
    requires CanStep(cfg, job, Sort(order)) && JobOk(cfg, w, job)
    requires Ranks(order, job.scan.entries, EntrySize)
    ensures var m := DoStep(cfg, w, job, Sort(order));
      JobOk(cfg, m.world, m.job) && m.job.base == job.base
  {
  }

  /** Every step of a run extends its serial prefix by one call. */
  lemma StepKeeps(cfg: Config, w: World, job: Job, step: RunStep)
    requires CanStep(cfg, job, step) && JobOk(cfg, w, job)
    requires step.Sort? ==> Ranks(step.order, job.scan.entries, EntrySize)
    ensures JobOk(cfg, DoStep(cfg, w, job, step).world, DoStep(cfg, w, job, step).job)
    ensures DoStep(cfg, w, job, step).job.base == job.base
  {
    match step
    case Discover(paths) => BetweenKeeps(cfg, w, job, step);
    case StatOne(ok, inspect, snapshotOk) => StatKeeps(cfg, w, job, ok, inspect, snapshotOk);
    case Sort(order) => SortKeeps(cfg, w, job, order);
    case Decide => DecideKeeps(cfg, w, job);
    case Measure(ok) => MeasureKeeps(cfg, w, job, ok);
    case Change(ok) => ChangeKeeps(cfg, w, job, ok);
    case Collect(inspects, at) => CollectKeeps(cfg, w, job, inspects, at);
    case SaveRun(at, fault) => BetweenKeeps(cfg, w, job, step);
    case Publish => BetweenKeeps(cfg, w, job, step);
  }

  lemma WriteKeeps(cfg: Config, w: World, job: Job, a: Append)
    requires JobOk(cfg, w, job)
    ensures JobOk(cfg, w.(files := Written(w.files, a)), job.(pending := job.pending + [a]))
  {
    WrittenAllSnoc(job.base.files, job.pending, a);
    WrittenAllSnoc(job.scan.files, job.pending, a);
    WrittenAllSnoc(job.sweep.files, job.pending, a);
    if job.phase.Sweeping? && job.phase.half.Some? {
      WrittenAllSnoc(WrittenAll(job.sweep.files, job.phase.half.value.tick.writes), job.pending, a);
    }
  }

  // ---- the whole machine ----

  /** Free or held by a reader: the serial world. Held by a run: that run's serial prefix on it. */
  ghost predicate SerialInv(cfg: Config, w0: World, s: System) {
    && Legal(cfg, w0, s.history)
    && if s.lock.ByRun?
       then InRun(s, s.lock.pid) && s.procs[s.lock.pid].job.base == Replay(cfg, w0, s.history)
            && JobOk(cfg, s.world, s.procs[s.lock.pid].job)
       else s.world == Replay(cfg, w0, s.history)
  }

  lemma SerialWrite(cfg: Config, w0: World, s: System, a: Append)
    requires SerialInv(cfg, w0, s)
    ensures SerialInv(cfg, w0, DoWrite(s, a))
  {
    if s.lock.ByRun? {
      WriteKeeps(cfg, s.world, s.procs[s.lock.pid].job, a);
    } else {
      ReplaySnoc(cfg, w0, s.history, Wrote(a));
    }
  }

  lemma SerialInside(cfg: Config, w0: World, s: System, p: nat, step: RunStep)
    requires SerialInv(cfg, w0, s) && s.lock == ByRun(p) && Enabled(cfg, s, Inside(p, step))
    ensures SerialInv(cfg, w0, DoInside(cfg, s, p, step))
  {
    StepKeeps(cfg, s.world, s.procs[p].job, step);
  }

  lemma SerialRelease(cfg: Config, w0: World, s: System, p: nat)
    requires SerialInv(cfg, w0, s) && s.lock == ByRun(p) && s.procs[p].job.phase.Releasing?
    ensures SerialInv(cfg, w0, DoRelease(cfg, s, p))
  {
    var job := s.procs[p].job;
    JobDone(cfg, s.world, job);
    ReplaySnoc(cfg, w0, s.history, Ran(job.env));
    ReplayWrites(cfg, w0, s.history + [Ran(job.env)], job.pending);
  }

  lemma SerialEnter(cfg: Config, w0: World, s: System, p: nat, at: int)
    requires SerialInv(cfg, w0, s) && p < |s.procs| && s.procs[p].Started?
    ensures SerialInv(cfg, w0, DoEnter(s, p, at))
  {
  }

  lemma SerialStep(cfg: Config, w0: World, s: System, l: Label)
    requires LockInv(s) && SerialInv(cfg, w0, s) && Enabled(cfg, s, l)
    ensures SerialInv(cfg, w0, Next(cfg, s, l))
  {
    match l
    case Write(a) => SerialWrite(cfg, w0, s, a);
    case Enter(p, at) => SerialEnter(cfg, w0, s, p, at);
    case Inside(p, step) => SerialInside(cfg, w0, s, p, step);
    case Release(p) => SerialRelease(cfg, w0, s, p);
    case _ => SerialRest(cfg, w0, s, l);
  }

  lemma SerialRest(cfg: Config, w0: World, s: System, l: Label)
    requires LockInv(s) && SerialInv(cfg, w0, s) && Enabled(cfg, s, l)
    requires l.Main? || l.CountError? || l.Advance? || l.Crash? || l.Ask? || l.Take? || l.Give?
    ensures SerialInv(cfg, w0, Next(cfg, s, l))
  {
    if Walker(l).Some? { WalkFrame(cfg, s, l); }
  }

  // ---- what each caller was told ----

  /** The place in the serial order of a call that got past TryLock and has returned. */
  function TurnOf(proc: Proc): Option<nat> {
    match proc
    case Erring(turn) => turn
    case Errored(turn) => turn
    case CrashedInRun(turn) => turn
    case Reporting(receipt, _) => Some(receipt.turn)
    case Done(receipt) => Some(receipt.turn)
    case CrashedAfter(receipt, _) => Some(receipt.turn)
    case _ => None
  }

  function EndingOf(proc: Proc): Ending {
    match proc
    case CrashedInRun(_) => Panicked
    case Reporting(receipt, _) => Completed(receipt.result)
    case Done(receipt) => Completed(receipt.result)
    case CrashedAfter(receipt, _) => Completed(receipt.result)
    case _ => DiscoverFailed
  }

  predicate HasReceipt(proc: Proc) { proc.Reporting? || proc.Done? || proc.CrashedAfter? }

  /** What this caller was told is what the run at its turn yields when run alone in that order. */
  ghost predicate TurnOk(cfg: Config, w0: World, h: seq<Event>, proc: Proc)
    requires Legal(cfg, w0, h)
  {
    TurnOf(proc).Some? ==>
      var k := TurnOf(proc).value;
      && k < |h| && h[k].Ran?
      && (LegalPrefix(cfg, w0, h, k); Run(cfg, Replay(cfg, w0, h[..k]), h[k].env).ending == EndingOf(proc))
      && (HasReceipt(proc) ==> proc.receipt.booked == Booked(cfg, proc.receipt.result, h[k].env.fault))
  }

  /** Returned calls have different turns, each matching the serial run there. */
  ghost predicate TurnInv(cfg: Config, w0: World, s: System)
    requires Legal(cfg, w0, s.history)
  {
    && (forall p :: 0 <= p < |s.procs| ==> TurnOk(cfg, w0, s.history, s.procs[p]))
    && (forall p, q :: 0 <= p < q < |s.procs| && TurnOf(s.procs[p]).Some? ==>
          TurnOf(s.procs[p]) != TurnOf(s.procs[q]))
  }

  lemma TurnStable(cfg: Config, w0: World, h: seq<Event>, more: seq<Event>, proc: Proc)
    requires Legal(cfg, w0, h) && Legal(cfg, w0, h + more) && TurnOk(cfg, w0, h, proc)
    ensures TurnOk(cfg, w0, h + more, proc)
  {
    if TurnOf(proc).Some? {
      var k := TurnOf(proc).value;
      LegalPrefix(cfg, w0, h, k);
      LegalPrefix(cfg, w0, h + more, k);
      assert (h + more)[..k] == h[..k];
    }
  }

  /** The serial order only grows. */
  lemma HistoryGrows(cfg: Config, s: System, l: Label)
    requires Enabled(cfg, s, l)
    ensures s.history <= Next(cfg, s, l).history
  {
  }

  /** A step that gives no pipeline a new turn. */
  lemma TurnSame(cfg: Config, w0: World, s: System, t: System, p: nat)
    requires Legal(cfg, w0, s.history) && Legal(cfg, w0, t.history) && s.history <= t.history
    requires TurnInv(cfg, w0, s)
    requires p < |s.procs| == |t.procs| && t.procs == s.procs[p := t.procs[p]]
    requires TurnOf(t.procs[p]) == TurnOf(s.procs[p]) || TurnOf(t.procs[p]).None?
    requires TurnOf(t.procs[p]).Some? ==>
      && EndingOf(t.procs[p]) == EndingOf(s.procs[p])
      && (HasReceipt(t.procs[p]) ==> HasReceipt(s.procs[p]) && t.procs[p].receipt == s.procs[p].receipt)
    ensures TurnInv(cfg, w0, t)
  {
    var more := t.history[|s.history|..];
    assert t.history == s.history + more;
    forall q | 0 <= q < |t.procs| ensures TurnOk(cfg, w0, t.history, t.procs[q]) {
      assert TurnOk(cfg, w0, s.history, s.procs[q]);
      TurnStable(cfg, w0, s.history, more, s.procs[q]);
      if q == p && TurnOf(t.procs[p]).Some? { assert TurnOf(t.procs[p]) == TurnOf(s.procs[p]); }
    }
  }

  lemma TurnRelease(cfg: Config, w0: World, s: System, p: nat)
    requires SerialInv(cfg, w0, s) && s.lock == ByRun(p) && s.procs[p].job.phase.Releasing?
    requires TurnInv(cfg, w0, s)
    ensures SerialInv(cfg, w0, DoRelease(cfg, s, p)) && TurnInv(cfg, w0, DoRelease(cfg, s, p))
  {
    SerialRelease(cfg, w0, s, p);
    var job, t := s.procs[p].job, DoRelease(cfg, s, p);
    var more := [Ran(job.env)] + Writes(job.pending);
    assert t.history == s.history + more;
    ReleasedTurn(cfg, w0, s, p);
    forall q | 0 <= q < |t.procs| ensures TurnOk(cfg, w0, t.history, t.procs[q]) {
      if q != p {
        assert TurnOk(cfg, w0, s.history, s.procs[q]);
        TurnStable(cfg, w0, s.history, more, s.procs[q]);
      }
    }
    forall i, j | 0 <= i < j < |t.procs| && TurnOf(t.procs[i]).Some?
      ensures TurnOf(t.procs[i]) != TurnOf(t.procs[j])
    {
      assert TurnOk(cfg, w0, s.history, s.procs[i]) && TurnOk(cfg, w0, s.history, s.procs[j]);
    }
  }

  /** The pipeline that releases gets the turn its own event takes in the history. */
  lemma ReleasedTurn(cfg: Config, w0: World, s: System, p: nat)
    requires SerialInv(cfg, w0, s) && s.lock == ByRun(p) && s.procs[p].job.phase.Releasing?
    requires Legal(cfg, w0, DoRelease(cfg, s, p).history)
    ensures TurnOk(cfg, w0, DoRelease(cfg, s, p).history, DoRelease(cfg, s, p).procs[p])
  {
    var job, t := s.procs[p].job, DoRelease(cfg, s, p);
    JobDone(cfg, s.world, job);
    assert t.history == s.history + ([Ran(job.env)] + Writes(job.pending));
    assert t.history[..|s.history|] == s.history;
    assert t.history[|s.history|] == Ran(job.env);
  }

  lemma TurnStep(cfg: Config, w0: World, s: System, l: Label)
    requires LockInv(s) && SerialInv(cfg, w0, s) && TurnInv(cfg, w0, s) && Enabled(cfg, s, l)
    ensures SerialInv(cfg, w0, Next(cfg, s, l)) && TurnInv(cfg, w0, Next(cfg, s, l))
  {
    SerialStep(cfg, w0, s, l);
    HistoryGrows(cfg, s, l);
    if l.Release? {
      TurnRelease(cfg, w0, s, l.p);
    } else if Walker(l).Some? {
      WalkFrame(cfg, s, l);
      TurnWalk(cfg, w0, s, l);
    } else {
      TurnRest(cfg, w0, s, l);
    }
  }

  lemma TurnWalk(cfg: Config, w0: World, s: System, l: Label)
    requires Enabled(cfg, s, l) && Walker(l).Some?
    requires Legal(cfg, w0, s.history) && TurnInv(cfg, w0, s)
    ensures Legal(cfg, w0, Next(cfg, s, l).history) && TurnInv(cfg, w0, Next(cfg, s, l))
  {
    WalkFrame(cfg, s, l);
    TurnSame(cfg, w0, s, Next(cfg, s, l), Walker(l).value);
  }

  lemma TurnRest(cfg: Config, w0: World, s: System, l: Label)
    requires Enabled(cfg, s, l) && Walker(l).None? && !l.Release?
    requires Legal(cfg, w0, s.history) && TurnInv(cfg, w0, s)
    requires Legal(cfg, w0, Next(cfg, s, l).history) && s.history <= Next(cfg, s, l).history
    ensures TurnInv(cfg, w0, Next(cfg, s, l))
  {
    var t := Next(cfg, s, l);
    match l
    case Enter(p, at) => TurnSame(cfg, w0, s, t, p);
    case Write(a) =>
      if s.lock.ByRun? && InRun(s, s.lock.pid) {
        TurnSame(cfg, w0, s, t, s.lock.pid);
      } else {
        TurnsStable(cfg, w0, s, t);
      }
    case Main(c) => TurnsStable(cfg, w0, s, t);
    case Ask =>
    case Take(r) =>
    case Give(r) =>
  }

  /** Steps that only add pipelines without a turn, or events. */
  lemma TurnsStable(cfg: Config, w0: World, s: System, t: System)
    requires Legal(cfg, w0, s.history) && Legal(cfg, w0, t.history) && s.history <= t.history
    requires TurnInv(cfg, w0, s)
    requires s.procs <= t.procs && forall q :: |s.procs| <= q < |t.procs| ==> t.procs[q].Started?
    ensures TurnInv(cfg, w0, t)
  {
    var more := t.history[|s.history|..];
    assert t.history == s.history + more;
    forall q | 0 <= q < |t.procs| ensures TurnOk(cfg, w0, t.history, t.procs[q]) {
      if q < |s.procs| {
        assert TurnOk(cfg, w0, s.history, s.procs[q]);
        TurnStable(cfg, w0, s.history, more, s.procs[q]);
      }
    }
  }

  // ---- readers ----

  /** A reader got the last result of a serial prefix: never one in the making. */
  ghost predicate ReaderOk(cfg: Config, w0: World, h: seq<Event>, r: Reader)
    requires Legal(cfg, w0, h)
  {
    r.Got? ==> r.seen <= |h| && (LegalPrefix(cfg, w0, h, r.seen); r.value == Replay(cfg, w0, h[..r.seen]).last)
  }

  ghost predicate ReaderInv(cfg: Config, w0: World, s: System)
    requires Legal(cfg, w0, s.history)
  {
    forall r :: 0 <= r < |s.readers| ==> ReaderOk(cfg, w0, s.history, s.readers[r])
  }

  lemma ReaderStable(cfg: Config, w0: World, h: seq<Event>, h': seq<Event>, r: Reader)
    requires Legal(cfg, w0, h) && Legal(cfg, w0, h') && h <= h' && ReaderOk(cfg, w0, h, r)
    ensures ReaderOk(cfg, w0, h', r)
  {
    if r.Got? { assert h'[..r.seen] == h[..r.seen]; }
  }

  lemma ReaderStep(cfg: Config, w0: World, s: System, l: Label)
    requires LockInv(s) && SerialInv(cfg, w0, s) && ReaderInv(cfg, w0, s) && Enabled(cfg, s, l)
    ensures SerialInv(cfg, w0, Next(cfg, s, l)) && ReaderInv(cfg, w0, Next(cfg, s, l))
  {
    SerialStep(cfg, w0, s, l);
    HistoryGrows(cfg, s, l);
    var t := Next(cfg, s, l);
    ReadersFrame(cfg, s, l);
    forall r | 0 <= r < |t.readers| ensures ReaderOk(cfg, w0, t.history, t.readers[r]) {
      if r < |s.readers| && t.readers[r] == s.readers[r] {
        assert ReaderOk(cfg, w0, s.history, s.readers[r]);
        ReaderStable(cfg, w0, s.history, t.history, s.readers[r]);
      } else if t.readers[r].Got? {
        assert s.lock == ByReader(r);
        assert s.history[..|s.history|] == s.history;
      }
    }
  }

  lemma ReadersFrame(cfg: Config, s: System, l: Label)
    requires Enabled(cfg, s, l)
    ensures var t := Next(cfg, s, l);
      forall r :: 0 <= r < |t.readers| ==>
        || (r < |s.readers| && t.readers[r] == s.readers[r])
        || t.readers[r].Waiting? || t.readers[r].Holding?
        || (r < |s.readers| && s.readers[r].Holding? && t.history == s.history
            && t.readers[r] == Got(s.world.last, |s.history|))
  {
    if Walker(l).Some? { WalkFrame(cfg, s, l); }
  }

  // ---- the theorem ----

  ghost predicate Inv(cfg: Config, w0: World, s: System) {
    LockInv(s) && SerialInv(cfg, w0, s) && TurnInv(cfg, w0, s) && ReaderInv(cfg, w0, s)
  }

  /**
   In every schedule of any number of pipelines, readers and loggers: runs exclude each
   other, the world is serial, callers were told what their turn yields, readers saw the
   last result of a serial prefix.
   */
  lemma {:induction false} EveryScheduleIsSerial(cfg: Config, w0: World, ls: seq<Label>)
    requires Possible(cfg, Boot(w0), ls)
    ensures Inv(cfg, w0, State(cfg, Boot(w0), ls))
    decreases |ls|
  {
    if |ls| > 0 {
      var n := |ls| - 1;
      EveryScheduleIsSerial(cfg, w0, ls[..n]);
      var s := State(cfg, Boot(w0), ls[..n]);
      LockStep(cfg, s, ls[n]);
      TurnStep(cfg, w0, s, ls[n]);
      ReaderStep(cfg, w0, s, ls[n]);
    }
  }

  /** At most one pipeline is past TryLock. */
  lemma MutualExclusion(cfg: Config, w0: World, ls: seq<Label>, p: nat, q: nat)
    requires Possible(cfg, Boot(w0), ls)
    requires InRun(State(cfg, Boot(w0), ls), p) && InRun(State(cfg, Boot(w0), ls), q)
    ensures p == q
  {
    EveryScheduleIsSerial(cfg, w0, ls);
    var s := State(cfg, Boot(w0), ls);
    assert s.procs[p].Running? && s.procs[q].Running?;
  }

  /**
   A call of Run is refused exactly when another run is past TryLock or a caller of
   LastResult holds the mutex; a refusal changes nothing but what that caller is told.
   */
  lemma RefusedExactly(cfg: Config, w0: World, ls: seq<Label>, p: nat, at: int)
    requires Possible(cfg, Boot(w0), ls)
    requires Enabled(cfg, State(cfg, Boot(w0), ls), Enter(p, at))
    ensures var s := State(cfg, Boot(w0), ls);
      var t := Next(cfg, s, Enter(p, at));
      && (t.procs[p] == Erring(None) <==>
            (exists q :: 0 <= q < |s.procs| && s.procs[q].Running?)
            || (exists r :: 0 <= r < |s.readers| && s.readers[r].Holding?))
      && (t.procs[p] == Erring(None) ==> t == SetProc(s, p, Erring(None)))
  {
    EveryScheduleIsSerial(cfg, w0, ls);
    var s := State(cfg, Boot(w0), ls);
    if s.lock.ByRun? { assert s.procs[s.lock.pid].Running?; }
    if s.lock.ByReader? { assert s.readers[s.lock.rid].Holding?; }
  }
}
