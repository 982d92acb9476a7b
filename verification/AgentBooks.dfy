/**
 The two sets of books, over every schedule: the process's counters and the database rows,
 against what the calls of Run returned.
 */
module AgentBooks {
  import opened Sums
  import opened Tables
  import opened Cleanup
  import opened RunLaws
  import opened History
  import opened Agent
  import opened Serial

  /** What a run row holds. */
  datatype Column = DryRuns | RealRuns | Logs | Space | Errors

  /** What is a single counter as well; errors are counted phase by phase. */
  type Measure = m: Column | !m.Errors? witness Logs

  function OfResult(m: Column, r: Result): int {
    match m
    case DryRuns => if r.dryRun then 1 else 0
    case RealRuns => if r.dryRun then 0 else 1
    case Logs => r.logsCleaned
    case Space => r.reclaimed
    case Errors => |r.errors|
  }

  function OfRow(m: Column): RunRow -> int {
    (row: RunRow) =>
      match m
      case DryRuns => if row.dryRun then 1 else 0
      case RealRuns => if row.dryRun then 0 else 1
      case Logs => row.logsCleaned
      case Space => row.reclaimed
      case Errors => |row.errors|
  }

  /** The counter's value. */
  function OfCounters(m: Measure, c: Counters): int {
    match m
    case DryRuns => c.runsDry
    case RealRuns => c.runsReal
    case Logs => c.logs
    case Space => c.space
  }

  // ---- which pipelines have added what ----

  function Rank(stage: Stage): nat {
    match stage
    case Telemetry => 0
    case IncRuns => 1
    case AddLogs => 2
    case AddSpace => 3
    case SetGauges => 4
    case AddFailures(_) => 5
    case Analysing => 6
  }

  function StepOf(m: Measure): nat {
    match m
    case DryRuns => 1
    case RealRuns => 1
    case Logs => 2
    case Space => 3
  }

  function ProgressOf(proc: Proc): nat {
    match proc
    case Reporting(_, stage) => Rank(stage)
    case CrashedAfter(_, stage) => Rank(stage)
    case Done(_) => 7
    case _ => 0
  }

  /** What this pipeline's call of Run returned. */
  function Earned(m: Measure): Proc -> int {
    (proc: Proc) => if HasReceipt(proc) then OfResult(m, proc.receipt.result) else 0
  }

  /** What this pipeline has added to the counter. */
  function Added(m: Measure): Proc -> int {
    (proc: Proc) => if HasReceipt(proc) && ProgressOf(proc) > StepOf(m) then OfResult(m, proc.receipt.result) else 0
  }

  /** What it has returned and not added: in flight, or lost in a crash. */
  function Owed(m: Measure): Proc -> int {
    (proc: Proc) => Earned(m)(proc) - Added(m)(proc)
  }

  function ErrorCounted(proc: Proc): int { if proc.Errored? then 1 else 0 }

  function InRow(cfg: Config, m: Column, r: Result, fault: Fault): int {
    if Booked(cfg, r, fault) then OfResult(m, r) else 0
  }

  /** What this pipeline has put into the run table. */
  function Rowed(cfg: Config, m: Column): Proc -> int {
    (proc: Proc) =>
      if HasReceipt(proc) then (if proc.receipt.booked then OfResult(m, proc.receipt.result) else 0)
      else if proc.Running? then
        match proc.job.phase
        case Publishing(r) => InRow(cfg, m, r, proc.job.env.fault)
        case Releasing(ending) => if ending.Completed? then InRow(cfg, m, ending.result, proc.job.env.fault) else 0
        case _ => 0
      else 0
  }

  // ---- how a step changes a sum over pipelines ----

  /** The pipeline whose entry this step replaces. */
  function Mover(s: System, l: Label): Option<nat> {
    match l
    case Write(_) => if s.lock.ByRun? && InRun(s, s.lock.pid) then Some(s.lock.pid) else None
    case Enter(p, _) => Some(p)
    case Release(p) => Some(p)
    case _ => Walker(l)
  }

  lemma MoveShape(cfg: Config, s: System, l: Label)
    requires Enabled(cfg, s, l)
    ensures var t, mover := Next(cfg, s, l), Mover(s, l);
      if mover.Some? then
        && mover.value < |s.procs| == |t.procs| && t.procs == s.procs[mover.value := t.procs[mover.value]]
        && !Finished(s.procs[mover.value])
      else t.procs == s.procs || t.procs == s.procs + [Started]
  {
    if Walker(l).Some? { WalkFrame(cfg, s, l); }
  }

  /** The change of one pipeline is the change of the sum. */
  lemma SumMove(cfg: Config, s: System, l: Label, f: Proc -> int)
    requires Enabled(cfg, s, l) && f(Started) == 0
    ensures Mover(s, l).Some? ==> Mover(s, l).value < |s.procs| == |Next(cfg, s, l).procs|
    ensures Sum(Next(cfg, s, l).procs, f) - Sum(s.procs, f) ==
      if Mover(s, l).Some? then f(Next(cfg, s, l).procs[Mover(s, l).value]) - f(s.procs[Mover(s, l).value]) else 0
  {
    MoveShape(cfg, s, l);
    var t := Next(cfg, s, l);
    if Mover(s, l).Some? {
      SumUpdate(s.procs, Mover(s, l).value, t.procs[Mover(s, l).value], f);
    } else {
      SumSnoc(s.procs, Started, f);
    }
  }

  // ---- the counters ----

  ghost predicate CountersInv(s: System) {
    && (forall m :: OfCounters(m, s.counters) == Sum(s.procs, Added(m)))
    && s.cleanupErrors == Sum(s.procs, ErrorCounted)
  }

  lemma CountersStep(cfg: Config, s: System, l: Label, m: Measure)
    requires Enabled(cfg, s, l)
    ensures OfCounters(m, Next(cfg, s, l).counters) - OfCounters(m, s.counters)
      == Sum(Next(cfg, s, l).procs, Added(m)) - Sum(s.procs, Added(m))
  {
    SumMove(cfg, s, l, Added(m));
    if l.Advance? { AdvanceCounts(s, l.p, l.phase, m); }
  }

  lemma AdvanceCounts(s: System, p: nat, phase: string, m: Measure)
    requires p < |s.procs| && s.procs[p].Reporting?
    ensures var t := DoAdvance(s, p, phase);
      OfCounters(m, t.counters) - OfCounters(m, s.counters) == Added(m)(t.procs[p]) - Added(m)(s.procs[p])
  {
  }

  lemma ErrorsStep(cfg: Config, s: System, l: Label)
    requires Enabled(cfg, s, l)
    ensures Next(cfg, s, l).cleanupErrors - s.cleanupErrors
      == Sum(Next(cfg, s, l).procs, ErrorCounted) - Sum(s.procs, ErrorCounted)
  {
    SumMove(cfg, s, l, ErrorCounted);
  }

  lemma {:induction false} CountersAlways(cfg: Config, w0: World, ls: seq<Label>)
    requires Possible(cfg, Boot(w0), ls)
    ensures CountersInv(State(cfg, Boot(w0), ls))
    decreases |ls|
  {
    if |ls| > 0 {
      var n := |ls| - 1;
      CountersAlways(cfg, w0, ls[..n]);
      var s := State(cfg, Boot(w0), ls[..n]);
      forall m ensures OfCounters(m, Next(cfg, s, ls[n]).counters) == Sum(Next(cfg, s, ls[n]).procs, Added(m)) {
        CountersStep(cfg, s, ls[n], m);
      }
      ErrorsStep(cfg, s, ls[n]);
    }
  }

  // ---- the failure counters, phase by phase ----

  function FailuresAdded(phase: string): Proc -> int {
    (proc: Proc) =>
      if !HasReceipt(proc) || ProgressOf(proc) < 5 then 0
      else if ProgressOf(proc) == 5 && phase in proc.stage.left then 0
      else PhaseCount(proc.receipt.result, phase)
  }

  lemma AdvanceFailures(s: System, p: nat, name: string, phase: string)
    requires p < |s.procs| && s.procs[p].Reporting?
    requires s.procs[p].stage.AddFailures? && s.procs[p].stage.left != {} ==> name in s.procs[p].stage.left
    ensures var t := DoAdvance(s, p, name);
      FailuresOf(t.counters, phase) - FailuresOf(s.counters, phase)
      == FailuresAdded(phase)(t.procs[p]) - FailuresAdded(phase)(s.procs[p])
  {
    var r := s.procs[p].receipt.result;
    if phase !in PhasesOf(r) { AbsentPhase(r, phase); }
  }

  lemma FailuresStep(cfg: Config, s: System, l: Label, phase: string)
    requires Enabled(cfg, s, l)
    ensures FailuresOf(Next(cfg, s, l).counters, phase) - FailuresOf(s.counters, phase)
      == Sum(Next(cfg, s, l).procs, FailuresAdded(phase)) - Sum(s.procs, FailuresAdded(phase))
  {
    SumMove(cfg, s, l, FailuresAdded(phase));
    if l.Advance? { AdvanceFailures(s, l.p, l.phase, phase); }
  }

  /** cleanup_failures_total per phase: the errors of the results whose phase has been added. */
  lemma {:induction false} FailuresAlways(cfg: Config, w0: World, ls: seq<Label>, phase: string)
    requires Possible(cfg, Boot(w0), ls)
    ensures var s := State(cfg, Boot(w0), ls);
      FailuresOf(s.counters, phase) == Sum(s.procs, FailuresAdded(phase))
    decreases |ls|
  {
    if |ls| > 0 {
      var n := |ls| - 1;
      FailuresAlways(cfg, w0, ls[..n], phase);
      FailuresStep(cfg, State(cfg, Boot(w0), ls[..n]), ls[n], phase);
    }
  }

  // ---- the run table ----

  lemma PersistRows(cfg: Config, db: Db, r: Result, at: int, fault: Fault, m: Column)
    ensures Sum(Persist(cfg, db, r, at, fault).runs, OfRow(m)) - Sum(db.runs, OfRow(m)) == InRow(cfg, m, r, fault)
  {
    SumSnoc(db.runs, ToRunRow(ToRunInput(cfg, r), db.lastRunId + 1, at), OfRow(m));
  }

  lemma InsideRows(cfg: Config, w: World, job: Job, step: RunStep, m: Column)
    requires CanStep(cfg, job, step)
    ensures var moved := DoStep(cfg, w, job, step);
      Sum(moved.world.db.runs, OfRow(m)) - Sum(w.db.runs, OfRow(m))
      == Rowed(cfg, m)(Running(moved.job)) - Rowed(cfg, m)(Running(job))
  {
    if step.SaveRun? { PersistRows(cfg, w.db, job.phase.result, step.at, step.fault, m); }
  }

  lemma ReleaseRows(cfg: Config, s: System, p: nat, m: Column)
    requires InRun(s, p) && s.procs[p].job.phase.Releasing?
    ensures Rowed(cfg, m)(DoRelease(cfg, s, p).procs[p]) == Rowed(cfg, m)(s.procs[p])
  {
  }

  lemma RowsStep(cfg: Config, s: System, l: Label, m: Column)
    requires Enabled(cfg, s, l)
    ensures Sum(Next(cfg, s, l).world.db.runs, OfRow(m)) - Sum(s.world.db.runs, OfRow(m))
      == Sum(Next(cfg, s, l).procs, Rowed(cfg, m)) - Sum(s.procs, Rowed(cfg, m))
  {
    SumMove(cfg, s, l, Rowed(cfg, m));
    if l.Inside? {
      InsideRows(cfg, s.world, s.procs[l.p].job, l.step, m);
    } else {
      if l.Release? { ReleaseRows(cfg, s, l.p, m); }
      RowsRest(cfg, s, l, m);
    }
  }

  lemma RowsRest(cfg: Config, s: System, l: Label, m: Column)
    requires Enabled(cfg, s, l) && !l.Inside?
    ensures Next(cfg, s, l).world.db == s.world.db
    ensures Mover(s, l).Some? && !l.Release? ==>
      var p := Mover(s, l).value;
      p < |s.procs| == |Next(cfg, s, l).procs| && Rowed(cfg, m)(Next(cfg, s, l).procs[p]) == Rowed(cfg, m)(s.procs[p])
  {
  }

  /** What the run table has gained since boot is what the pipelines have put there. */
  lemma {:induction false} RowsAlways(cfg: Config, w0: World, ls: seq<Label>, m: Column)
    requires Possible(cfg, Boot(w0), ls)
    ensures var s := State(cfg, Boot(w0), ls);
      Sum(s.world.db.runs, OfRow(m)) - Sum(w0.db.runs, OfRow(m)) == Sum(s.procs, Rowed(cfg, m))
    decreases |ls|
  {
    if |ls| > 0 {
      var n := |ls| - 1;
      RowsAlways(cfg, w0, ls[..n], m);
      RowsStep(cfg, State(cfg, Boot(w0), ls[..n]), ls[n], m);
    }
  }

  // ---- the theorems ----

  /** Neither counted as a run nor as an error yet, and still able to be. */
  function InFlight(proc: Proc): int {
    if !Finished(proc) && !(HasReceipt(proc) && ProgressOf(proc) > 1) then 1 else 0
  }

  /** Panicked before it was counted. */
  function CrashedUncounted(proc: Proc): int {
    if proc.CrashedInRun? || (proc.CrashedAfter? && ProgressOf(proc) <= 1) then 1 else 0
  }

  /**
   Pipelines started = cleanup_runs_total over both labels + the self-monitor's cleanup
   errors + the ones that panicked before being counted + the ones still in flight, at every
   reachable state.
   */
  lemma EveryPipelineIsCountedOnce(cfg: Config, w0: World, ls: seq<Label>)
    requires Possible(cfg, Boot(w0), ls)
    ensures var s := State(cfg, Boot(w0), ls);
      |s.procs| == s.counters.runsDry + s.counters.runsReal + s.cleanupErrors
        + Sum(s.procs, CrashedUncounted) + Sum(s.procs, InFlight)
  {
    CountersAlways(cfg, w0, ls);
    var s := State(cfg, Boot(w0), ls);
    assert OfCounters(DryRuns, s.counters) == s.counters.runsDry;
    assert OfCounters(RealRuns, s.counters) == s.counters.runsReal;
    EachIsOne(s.procs);
  }

  lemma {:induction false} EachIsOne(procs: seq<Proc>)
    ensures |procs| == Sum(procs, Added(DryRuns)) + Sum(procs, Added(RealRuns)) + Sum(procs, ErrorCounted)
      + Sum(procs, CrashedUncounted) + Sum(procs, InFlight)
    decreases |procs|
  {
    if |procs| > 0 {
      EachIsOne(procs[..|procs| - 1]);
      var proc := procs[|procs| - 1];
      assert Added(DryRuns)(proc) + Added(RealRuns)(proc) + ErrorCounted(proc)
        + CrashedUncounted(proc) + InFlight(proc) == 1;
    }
  }

  /** What the calls of Run returned = the counter + what is still owed to it, at every reachable state. */
  lemma EarnedIsCountedOrOwed(cfg: Config, w0: World, ls: seq<Label>, m: Measure)
    requires Possible(cfg, Boot(w0), ls)
    ensures var s := State(cfg, Boot(w0), ls);
      Sum(s.procs, Earned(m)) == OfCounters(m, s.counters) + Sum(s.procs, Owed(m))
    ensures forall proc :: HasReceipt(proc) && ProgressOf(proc) > StepOf(m) ==> Owed(m)(proc) == 0
  {
    CountersAlways(cfg, w0, ls);
    var s := State(cfg, Boot(w0), ls);
    SumPlus(s.procs, Added(m), Owed(m), Earned(m));
  }

  /** Every pipeline has ended without a panic, and every run row was written. */
  ghost predicate Clean(s: System) {
    forall p :: 0 <= p < |s.procs| ==> s.procs[p].Errored? || (s.procs[p].Done? && s.procs[p].receipt.booked)
  }

  /**
   The two sets of books differ by what the pipelines have put in one and not the other; so
   they agree once every pipeline has ended cleanly and no write failed.
   */
  lemma BooksAgree(cfg: Config, w0: World, ls: seq<Label>, m: Measure)
    requires Possible(cfg, Boot(w0), ls)
    ensures var s := State(cfg, Boot(w0), ls);
      var gained := Sum(s.world.db.runs, OfRow(m)) - Sum(w0.db.runs, OfRow(m));
      && OfCounters(m, s.counters) - gained == Sum(s.procs, Added(m)) - Sum(s.procs, Rowed(cfg, m))
      && (Clean(s) ==> OfCounters(m, s.counters) == gained)
  {
    CountersAlways(cfg, w0, ls);
    RowsAlways(cfg, w0, ls, m);
    var s := State(cfg, Boot(w0), ls);
    if Clean(s) { SumEq(s.procs, s.procs, Added(m), Rowed(cfg, m)); }
  }

  // ---- the errors, phase by phase ----

  /** A result of a run has errors of two phases only. */
  ghost predicate TwoPhases(r: Result) {
    && |r.errors| == PhaseCount(r, STAT) + PhaseCount(r, TRUNCATE)
    && forall phase :: phase != STAT && phase != TRUNCATE ==> PhaseCount(r, phase) == 0
  }

  lemma RunHasTwoPhases(cfg: Config, w: World, env: Env)
    requires Fits(cfg, w, env) && Run(cfg, w, env).ending.Completed?
    ensures TwoPhases(Run(cfg, w, env).ending.result)
  {
    var r := Run(cfg, w, env).ending.result;
    RunAccounts(cfg, w, env);
    forall phase | phase != STAT && phase != TRUNCATE ensures PhaseCount(r, phase) == 0 {
      OtherPhase(r, phase);
    }
  }

  /** With all errors accounted for by two phases, none is left for a third. */
  lemma OtherPhase(r: Result, phase: string)
    requires |r.errors| == PhaseCount(r, STAT) + PhaseCount(r, TRUNCATE) && phase != STAT && phase != TRUNCATE
    ensures PhaseCount(r, phase) == 0
  {
    var one := (e: CleanupError) => 1;
    var known := (e: CleanupError) => InPhase(STAT)(e) + InPhase(TRUNCATE)(e);
    SumPlus(r.errors, InPhase(STAT), InPhase(TRUNCATE), known);
    SumOnes(r.errors, one);
    SumTight(r.errors, known, one);
    forall i | 0 <= i < |r.errors| ensures InPhase(phase)(r.errors[i]) == 0 {
      assert known(r.errors[i]) == one(r.errors[i]);
    }
    SumZero(r.errors, InPhase(phase));
  }

  lemma ReceiptHasTwoPhases(cfg: Config, w0: World, ls: seq<Label>, p: nat)
    requires Possible(cfg, Boot(w0), ls)
    requires p < |State(cfg, Boot(w0), ls).procs| && HasReceipt(State(cfg, Boot(w0), ls).procs[p])
    ensures TwoPhases(State(cfg, Boot(w0), ls).procs[p].receipt.result)
  {
    EveryScheduleIsSerial(cfg, w0, ls);
    var s := State(cfg, Boot(w0), ls);
    assert TurnOk(cfg, w0, s.history, s.procs[p]);
    var k := s.procs[p].receipt.turn;
    LegalPrefix(cfg, w0, s.history, k);
    RunHasTwoPhases(cfg, Replay(cfg, w0, s.history[..k]), s.history[k].env);
  }

  /**
   Once every pipeline has ended cleanly, the failure counters of the two phases add up to the
   errors in the run rows gained since boot, and no other phase has been counted.
   */
  lemma FailuresAgree(cfg: Config, w0: World, ls: seq<Label>)
    requires Possible(cfg, Boot(w0), ls) && Clean(State(cfg, Boot(w0), ls))
    ensures var s := State(cfg, Boot(w0), ls);
      && FailuresOf(s.counters, STAT) + FailuresOf(s.counters, TRUNCATE)
         == Sum(s.world.db.runs, OfRow(Errors)) - Sum(w0.db.runs, OfRow(Errors))
      && forall phase :: phase != STAT && phase != TRUNCATE ==> FailuresOf(s.counters, phase) == 0
  {
    var s := State(cfg, Boot(w0), ls);
    RowsAlways(cfg, w0, ls, Errors);
    FailuresAlways(cfg, w0, ls, STAT);
    FailuresAlways(cfg, w0, ls, TRUNCATE);
    forall p | 0 <= p < |s.procs| && HasReceipt(s.procs[p]) ensures TwoPhases(s.procs[p].receipt.result) {
      ReceiptHasTwoPhases(cfg, w0, ls, p);
    }
    CleanFailures(cfg, s);
    forall phase | phase != STAT && phase != TRUNCATE ensures FailuresOf(s.counters, phase) == 0 {
      FailuresAlways(cfg, w0, ls, phase);
      CleanOtherPhase(s, phase);
    }
  }

  lemma CleanFailures(cfg: Config, s: System)
    requires Clean(s)
    requires forall p :: 0 <= p < |s.procs| && HasReceipt(s.procs[p]) ==> TwoPhases(s.procs[p].receipt.result)
    ensures Sum(s.procs, Rowed(cfg, Errors))
      == Sum(s.procs, FailuresAdded(STAT)) + Sum(s.procs, FailuresAdded(TRUNCATE))
  {
    forall p | 0 <= p < |s.procs|
      ensures Rowed(cfg, Errors)(s.procs[p]) == FailuresAdded(STAT)(s.procs[p]) + FailuresAdded(TRUNCATE)(s.procs[p])
    {
      if s.procs[p].Done? { assert TwoPhases(s.procs[p].receipt.result); }
    }
    SumPlus(s.procs, FailuresAdded(STAT), FailuresAdded(TRUNCATE), Rowed(cfg, Errors));
  }

  lemma CleanOtherPhase(s: System, phase: string)
    requires Clean(s) && phase != STAT && phase != TRUNCATE
    requires forall p :: 0 <= p < |s.procs| && HasReceipt(s.procs[p]) ==> TwoPhases(s.procs[p].receipt.result)
    ensures Sum(s.procs, FailuresAdded(phase)) == 0
  {
    forall p | 0 <= p < |s.procs| ensures FailuresAdded(phase)(s.procs[p]) == 0 {
      if s.procs[p].Done? { assert TwoPhases(s.procs[p].receipt.result); }
    }
    SumZero(s.procs, FailuresAdded(phase));
  }
}
