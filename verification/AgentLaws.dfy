/** More about every schedule: progress, what may shrink a file, the tables, and shutdown. */
module AgentLaws {
  import opened Sums
  import opened LogFiles
  import opened Policies
  import opened Docker
  import opened Tables
  import opened Ranking
  import opened Cleanup
  import opened ScanLaws
  import opened SweepLaws
  import opened RunLaws
  import opened History
  import opened Agent
  import opened Serial
  import opened AgentBooks

  // ---- every accepted call has exactly one place in the serial order ----

  ghost predicate Owned(s: System, k: nat) {
    exists p :: 0 <= p < |s.procs| && TurnOf(s.procs[p]) == Some(k)
  }

  ghost predicate OwnersInv(s: System) {
    forall k :: 0 <= k < |s.history| && s.history[k].Ran? ==> Owned(s, k)
  }

  /** A pipeline that has a turn keeps it. */
  lemma TurnsLast(cfg: Config, s: System, l: Label, q: nat)
    requires LockInv(s) && Enabled(cfg, s, l) && q < |s.procs| && TurnOf(s.procs[q]).Some?
    ensures q < |Next(cfg, s, l).procs| && TurnOf(Next(cfg, s, l).procs[q]) == TurnOf(s.procs[q])
  {
    MoveShape(cfg, s, l);
  }

  lemma NewRunIsReleased(cfg: Config, s: System, l: Label, k: nat)
    requires Enabled(cfg, s, l)
    requires |s.history| <= k < |Next(cfg, s, l).history| && Next(cfg, s, l).history[k].Ran?
    ensures k == |s.history| && l.Release? && l.p < |Next(cfg, s, l).procs|
      && TurnOf(Next(cfg, s, l).procs[l.p]) == Some(k)
  {
    if l.Release? {
      var job := s.procs[l.p].job;
      assert Next(cfg, s, l).history == s.history + ([Ran(job.env)] + Writes(job.pending));
    } else if Walker(l).Some? {
      WalkFrame(cfg, s, l);
    }
  }

  lemma OwnersStep(cfg: Config, s: System, l: Label)
    requires LockInv(s) && OwnersInv(s) && Enabled(cfg, s, l)
    ensures OwnersInv(Next(cfg, s, l))
  {
    var t := Next(cfg, s, l);
    HistoryGrows(cfg, s, l);
    forall k | 0 <= k < |t.history| && t.history[k].Ran? ensures Owned(t, k) {
      if k < |s.history| {
        assert s.history[k].Ran?;
        assert Owned(s, k);
        var p :| 0 <= p < |s.procs| && TurnOf(s.procs[p]) == Some(k);
        TurnsLast(cfg, s, l, p);
      } else {
        NewRunIsReleased(cfg, s, l, k);
      }
    }
  }

  /** No run in the serial order without a caller; with TurnInv, exactly one each. */
  lemma {:induction false} EveryTurnHasItsCaller(cfg: Config, w0: World, ls: seq<Label>)
    requires Possible(cfg, Boot(w0), ls)
    ensures OwnersInv(State(cfg, Boot(w0), ls))
    decreases |ls|
  {
    if |ls| > 0 {
      var n := |ls| - 1;
      EveryTurnHasItsCaller(cfg, w0, ls[..n]);
      EveryScheduleIsSerial(cfg, w0, ls[..n]);
      OwnersStep(cfg, State(cfg, Boot(w0), ls[..n]), ls[n]);
    }
  }

  // ---- progress ----

  /** The kinds of steps a run still has before it, then how many of the current kind. */
  function PhaseRank(phase: Phase): nat {
    match phase
    case Discovering => 6
    case Scanning => 5
    case Sweeping(_) => 4
    case Persisting(_) => 3
    case Publishing(_) => 2
    case Releasing(_) => 1
  }

  function LeftInPhase(job: Job): int {
    match job.phase
    case Scanning => if job.env.paths.Some? then |job.env.paths.value| - |job.env.probes| else 0
    case Sweeping(half) => 2 * (|job.env.order| - |job.env.acts|) - (if half.Some? then 1 else 0)
    case _ => 0
  }

  /** Every step of a run brings it closer to its return. */
  lemma RunAdvances(cfg: Config, w: World, job: Job, step: RunStep)
    requires CanStep(cfg, job, step)
    ensures var after := DoStep(cfg, w, job, step).job;
      PhaseRank(after.phase) < PhaseRank(job.phase)
      || (PhaseRank(after.phase) == PhaseRank(job.phase) && 0 <= LeftInPhase(after) < LeftInPhase(job))
  {
  }

  /** The next step of a run, whatever the kernel and Docker answer. */
  function SomeStep(cfg: Config, job: Job, order: seq<LogEntry>): RunStep {
    match job.phase
    case Discovering => Discover(None)
    case Scanning =>
      if job.env.paths.Some? && |job.env.probes| < |job.env.paths.value|
      then StatOne(false, Inspect.Failed, false) else Sort(order)
    case Sweeping(half) =>
      if half.Some? then Change(false)
      else if !AtEntry(job) then Collect(seq(|job.env.order|, _ => Inspect.Failed), 0)
      else if Touches(cfg, Current(job)) then Measure(false) else Decide
    case Persisting(_) => SaveRun(0, NoFault)
    case Publishing(_) => Publish
    case Releasing(_) => Publish
  }

  /**
   A run that holds the lock is never stuck: until it is about to release it has a next
   step, and then the release. With RunAdvances, the lock is always given back.
   */
  lemma RunIsNeverStuck(cfg: Config, w0: World, ls: seq<Label>, p: nat)
    requires Possible(cfg, Boot(w0), ls) && State(cfg, Boot(w0), ls).lock == ByRun(p)
    ensures var s := State(cfg, Boot(w0), ls);
      Enabled(cfg, s, Release(p)) || exists step :: Enabled(cfg, s, Inside(p, step))
  {
    EveryScheduleIsSerial(cfg, w0, ls);
    var s := State(cfg, Boot(w0), ls);
    var job := s.procs[p].job;
    if !job.phase.Releasing? {
      var order := SomeRanking(job.scan.entries, EntrySize);
      var step := SomeStep(cfg, job, order);
      StepFits(cfg, s.world, job, order);
      assert Enabled(cfg, s, Inside(p, step));
    }
  }

  /** A step that the run p takes by itself. */
  predicate IsStepOf(l: Label, p: nat) { (l.Inside? && l.p == p) || l == Release(p) }

  ghost predicate Closer(s: System, t: System, p: nat)
    requires InRun(s, p)
  {
    InRun(t, p) && (
      var after, before := t.procs[p].job, s.procs[p].job;
      PhaseRank(after.phase) < PhaseRank(before.phase)
      || (PhaseRank(after.phase) == PhaseRank(before.phase) && 0 <= LeftInPhase(after) < LeftInPhase(before)))
  }

  lemma NextOfRun(cfg: Config, w0: World, ls: seq<Label>, p: nat) returns (l: Label)
    requires Possible(cfg, Boot(w0), ls) && State(cfg, Boot(w0), ls).lock == ByRun(p)
    requires InRun(State(cfg, Boot(w0), ls), p)
    ensures var s := State(cfg, Boot(w0), ls);
      && Enabled(cfg, s, l) && IsStepOf(l, p)
      && (l != Release(p) ==> Next(cfg, s, l).lock == ByRun(p) && Closer(s, Next(cfg, s, l), p))
  {
    var s := State(cfg, Boot(w0), ls);
    RunIsNeverStuck(cfg, w0, ls, p);
    if Enabled(cfg, s, Release(p)) {
      l := Release(p);
    } else {
      var step :| Enabled(cfg, s, Inside(p, step));
      RunAdvances(cfg, s.world, s.procs[p].job, step);
      l := Inside(p, step);
    }
  }

  /**
   From every reachable state in which a run holds the mutex, its own steps suffice to give
   it back, panic or not, and then its caller has been told how its turn ended.
   */
  lemma {:induction false} LockIsGivenBack(cfg: Config, w0: World, ls: seq<Label>, p: nat) returns (more: seq<Label>)
    requires Possible(cfg, Boot(w0), ls) && State(cfg, Boot(w0), ls).lock == ByRun(p)
    requires InRun(State(cfg, Boot(w0), ls), p)
    ensures ls <= more && Possible(cfg, Boot(w0), more)
    ensures forall i :: |ls| <= i < |more| ==> IsStepOf(more[i], p)
    ensures var t := State(cfg, Boot(w0), more);
      t.lock.Free? && p < |t.procs| && TurnOf(t.procs[p]).Some?
    decreases PhaseRank(State(cfg, Boot(w0), ls).procs[p].job.phase), LeftInPhase(State(cfg, Boot(w0), ls).procs[p].job)
  {
    var l := NextOfRun(cfg, w0, ls, p);
    var longer, t := Extend(cfg, Boot(w0), ls, l);
    more := longer;
    if l != Release(p) { more := LockIsGivenBack(cfg, w0, longer, p); }
  }

  lemma StepFits(cfg: Config, w: World, job: Job, order: seq<LogEntry>)
    requires JobOk(cfg, w, job) && !job.phase.Releasing? && Ranks(order, job.scan.entries, EntrySize)
    ensures CanStep(cfg, job, SomeStep(cfg, job, order))
    ensures SomeStep(cfg, job, order).Sort? ==> SomeStep(cfg, job, order).order == order
  {
    SumBag(order, job.scan.entries, EntrySize);
  }

  // ---- only a policy shrinks a log, and only an eligible one ----

  predicate Shrinks(before: Files, after: Files, path: Path) {
    path in before && (path !in after || after[path] < before[path])
  }

  /** The entry a run is at was found by one of its own stats. */
  lemma CurrentWasFound(cfg: Config, w: World, job: Job)
    requires JobOk(cfg, w, job) && job.phase.Sweeping? && AtEntry(job)
    ensures var k := |job.env.acts|;
      && SameButFlag(Current(job), ToListed(cfg, job.env.order[k]))
      && WasFound(cfg, job.env.paths.value, job.env.probes, job.env.order[k])
  {
    var k := |job.env.acts|;
    var start := StartSweep(cfg, job.scan, job.env.order);
    ScanCounts(cfg, job.env.paths.value, job.env.probes, StartScan(job.base));
    SweepFlags(cfg, job.env.acts, start);
    assert SameButFlag(job.sweep.all[k], start.all[k]);
    SameElements(job.env.order, job.scan.entries, EntrySize, job.env.order[k]);
    ScanFound(cfg, job.env.paths.value, job.env.probes, StartScan(job.base), job.env.order[k]);
  }

  /** Some stat of this run found the log at or above the threshold, not excluded. */
  ghost predicate FoundEligible(cfg: Config, env: Env, path: Path) {
    env.paths.Some? && exists e, i: nat :: (
      && FoundAt(cfg, env.paths.value, env.probes, e, i)
      && e.path == path && Threshold(cfg) <= e.size && e.name !in cfg.excluded)
  }

  /**
   In every schedule, the only step that shortens or removes a log is the change of a policy
   in a real run in an implemented mode, on the entry that run is at; and a stat of that same
   run found that log at or above the threshold under a name that is not excluded.
   */
  lemma OnlyPoliciesShrinkLogs(cfg: Config, w0: World, ls: seq<Label>, l: Label, path: Path)
    requires Possible(cfg, Boot(w0), ls) && Enabled(cfg, State(cfg, Boot(w0), ls), l)
    requires var s := State(cfg, Boot(w0), ls);
      Shrinks(s.world.files, Next(cfg, s, l).world.files, path)
    ensures var s := State(cfg, Boot(w0), ls);
      && l.Inside? && l.step.Change? && InRun(s, l.p) && !cfg.dryRun && Implemented(cfg.mode)
      && FoundEligible(cfg, s.procs[l.p].job.env, path)
  {
    EveryScheduleIsSerial(cfg, w0, ls);
    var s := State(cfg, Boot(w0), ls);
    ShrinkIsChange(cfg, s, l, path);
    var job := s.procs[l.p].job;
    assert s.lock == ByRun(l.p);
    CurrentWasFound(cfg, s.world, job);
    var e := job.env.order[|job.env.acts|];
    var i: nat :| FoundAt(cfg, job.env.paths.value, job.env.probes, e, i);
    assert e.path == path;
  }

  lemma ShrinkIsChange(cfg: Config, s: System, l: Label, path: Path)
    requires Enabled(cfg, s, l) && Shrinks(s.world.files, Next(cfg, s, l).world.files, path)
    ensures l.Inside? && l.step.Change? && InRun(s, l.p) && Current(s.procs[l.p].job).path == path
  {
    match l
    case Inside(p, step) => ShrinkInside(cfg, s.world, s.procs[p].job, step, path);
    case Write(a) =>
    case Main(c) =>
    case _ =>
  }

  lemma ShrinkInside(cfg: Config, w: World, job: Job, step: RunStep, path: Path)
    requires CanStep(cfg, job, step) && Shrinks(w.files, DoStep(cfg, w, job, step).world.files, path)
    ensures step.Change? && Current(job).path == path
  {
  }

  // ---- the tables, at every reachable state ----

  lemma JobKeepsBooks(cfg: Config, w: World, job: Job)
    requires JobOk(cfg, w, job) && Books(job.base.db)
    ensures Books(w.db)
  {
    var snapped := DbWith(job.base, job.scan);
    forall k | 0 <= k < |snapped.runs| ensures Balanced(snapped, snapped.runs[k].id, snapped.runs[k].logsCleaned) {
      assert Balanced(job.base.db, job.base.db.runs[k].id, job.base.db.runs[k].logsCleaned);
    }
    if job.phase.Publishing? || (job.phase.Releasing? && job.phase.ending.Completed?) {
      RunKeepsBooks(cfg, job.base, job.env);
    }
  }

  /** From tables in order, the tables are in order at every reachable state, mid-run included. */
  lemma TablesAlwaysBalance(cfg: Config, w0: World, ls: seq<Label>)
    requires Possible(cfg, Boot(w0), ls) && Books(w0.db)
    ensures Books(State(cfg, Boot(w0), ls).world.db)
  {
    EveryScheduleIsSerial(cfg, w0, ls);
    var s := State(cfg, Boot(w0), ls);
    HistoryKeepsBooks(cfg, w0, s.history);
    if s.lock.ByRun? { JobKeepsBooks(cfg, s.world, s.procs[s.lock.pid].job); }
  }

  // ---- refusal without a run ----

  /**
   ErrAlreadyRunning says that a run is in progress; a caller of LastResult that holds the
   mutex at that moment is enough. A schedule in which a call is refused while no run is.
   */
  lemma RefusedWithoutARun(cfg: Config, w0: World)
    ensures exists ls :: (
      && Possible(cfg, Boot(w0), ls)
      && State(cfg, Boot(w0), ls).procs == [Erring(None)]
      && State(cfg, Boot(w0), ls).history == [])
  {
    var ls1, s1 := Extend(cfg, Boot(w0), [], Main(StartCron));
    var ls2, s2 := Extend(cfg, Boot(w0), ls1, Main(CronTick));
    assert s2.procs == [Started];
    var ls3, s3 := Extend(cfg, Boot(w0), ls2, Ask);
    assert s3.readers == [Waiting];
    var ls4, s4 := Extend(cfg, Boot(w0), ls3, Take(0));
    var ls5, s5 := Extend(cfg, Boot(w0), ls4, Enter(0, 0));
    assert s5.procs == [Erring(None)];
  }

  lemma Extend(cfg: Config, s: System, ls: seq<Label>, l: Label) returns (more: seq<Label>, t: System)
    requires Possible(cfg, s, ls) && Enabled(cfg, State(cfg, s, ls), l)
    ensures ls <= more && |more| == |ls| + 1 && more[|ls|] == l
    ensures Possible(cfg, s, more) && t == State(cfg, s, more) == Next(cfg, State(cfg, s, ls), l)
  {
    more := ls + [l];
    assert more[..|ls|] == ls && more[|ls|] == l;
    t := Next(cfg, State(cfg, s, ls), l);
    assert State(cfg, s, more) == t;
  }

  // ---- shutdown ----

  ghost predicate AllFinished(s: System) { forall p :: 0 <= p < |s.procs| ==> Finished(s.procs[p]) }

  ghost predicate InitialFinished(s: System) {
    s.initial.Some? && s.initial.value < |s.procs| && Finished(s.procs[s.initial.value])
  }

  ghost predicate MainInv(s: System) {
    && (s.main.InitialRun? ==> s.initial == Some(s.main.pid))
    && (s.main.Serving? || s.main.Stopping? ==> InitialFinished(s))
    && (s.main.Stopped? || s.main.Closed? ==> AllFinished(s))
  }

  /** A finished pipeline stays as it is. */
  lemma FinishedStays(cfg: Config, s: System, l: Label, p: nat)
    requires LockInv(s) && Enabled(cfg, s, l) && p < |s.procs| && Finished(s.procs[p])
    ensures p < |Next(cfg, s, l).procs| && Next(cfg, s, l).procs[p] == s.procs[p]
  {
    MoveShape(cfg, s, l);
  }

  lemma OnlyMainMoves(cfg: Config, s: System, l: Label)
    requires Enabled(cfg, s, l) && !l.Main?
    ensures Next(cfg, s, l).main == s.main && Next(cfg, s, l).initial == s.initial
    ensures |Next(cfg, s, l).procs| == |s.procs|
  {
    if Walker(l).Some? { WalkFrame(cfg, s, l); }
  }

  lemma MainStep(cfg: Config, s: System, l: Label)
    requires LockInv(s) && MainInv(s) && Enabled(cfg, s, l)
    ensures MainInv(Next(cfg, s, l))
  {
    var t := Next(cfg, s, l);
    if l.Main? {
      ControlStep(s, l.control);
    } else {
      OnlyMainMoves(cfg, s, l);
      if InitialFinished(s) { FinishedStays(cfg, s, l, s.initial.value); }
      if AllFinished(s) {
        forall p | 0 <= p < |t.procs| ensures Finished(t.procs[p]) { FinishedStays(cfg, s, l, p); }
      }
    }
  }

  lemma ControlStep(s: System, c: Control)
    requires MainInv(s) && ControlEnabled(s, c)
    ensures MainInv(DoControl(s, c))
  {
  }

  lemma {:induction false} MainAlways(cfg: Config, w0: World, ls: seq<Label>)
    requires Possible(cfg, Boot(w0), ls)
    ensures MainInv(State(cfg, Boot(w0), ls))
    decreases |ls|
  {
    if |ls| > 0 {
      var n := |ls| - 1;
      MainAlways(cfg, w0, ls[..n]);
      EveryScheduleIsSerial(cfg, w0, ls[..n]);
      MainStep(cfg, State(cfg, Boot(w0), ls[..n]), ls[n]);
    }
  }

  /**
   Once sched.Stop has returned, every pipeline has ended and the lock is not held by a run;
   whatever still happens leaves the tables and the last result alone. So no pipeline
   touches the database after the deferred Close.
   */
  lemma NothingRunsAfterStop(cfg: Config, w0: World, ls: seq<Label>, l: Label)
    requires Possible(cfg, Boot(w0), ls)
    requires State(cfg, Boot(w0), ls).main.Stopped? || State(cfg, Boot(w0), ls).main.Closed?
    requires Enabled(cfg, State(cfg, Boot(w0), ls), l)
    ensures var s := State(cfg, Boot(w0), ls);
      && AllFinished(s) && !s.lock.ByRun?
      && Next(cfg, s, l).procs == s.procs
      && Next(cfg, s, l).world.db == s.world.db && Next(cfg, s, l).world.last == s.world.last
  {
    MainAlways(cfg, w0, ls);
    EveryScheduleIsSerial(cfg, w0, ls);
    QuietWhenFinished(cfg, State(cfg, Boot(w0), ls), l);
  }

  lemma QuietWhenFinished(cfg: Config, s: System, l: Label)
    requires LockInv(s) && AllFinished(s) && (s.main.Stopped? || s.main.Closed?) && Enabled(cfg, s, l)
    ensures !s.lock.ByRun?
    ensures var t := Next(cfg, s, l);
      t.procs == s.procs && t.world.db == s.world.db && t.world.last == s.world.last
  {
    assert forall p :: 0 <= p < |s.procs| ==> Finished(s.procs[p]) && !s.procs[p].Running?;
    MoveShape(cfg, s, l);
  }
}
